# Movie data pipeline: enrichment and page loop

This project models the core of a batch job that copies movie listings from a movie
metadata API into a store. The core is `DataPipeline` in `src/pipeline.py`:

- `_enrich_movie` turns one listing entry into a processed record. It rejects an entry whose
  `id` is missing or falsy before any lookup. It takes the keyword names in order and the
  names of the first three cast members after a stable sort by billing `order`, where a
  missing `order` counts as 999. It drops the record when its `title` is falsy.
- `run` chooses the listing fetcher for the pipeline type and raises on an unknown type. It
  walks pages `1..total_pages` and stops at the first page that is missing or has no
  `results`. It enriches every result of a page in order and upserts the page's valid records
  in one call, only when there is at least one.

The model's modules:

- `Wrappers`: `Option`, and the present values of a sequence of options (`Somes`) with their
  positions (`SomeIndices`).
- `Movies`: the listing entry (`Summary`), the two lookup responses, the processed record
  (`Movie`), and Python truthiness of `id` and `title`.
- `CastOrder`: Python's stable `sorted` by `order` with default 999, as an insertion sort.
  Its contract says the result is sorted, a permutation of the input, and stable: it keeps
  the members of each key in input order. `StableSortIsUnique` shows that these three facts
  determine the result.
- `Enrichment`: `_enrich_movie` as a pure function of the entry and the two lookup
  responses. A failed lookup is `None`.
- `Pipeline`: the endpoints as an `Upstream` value of four functions, one per endpoint. `run`
  is the method `Run`; its page loop is `RunPages` and its per-page loop is `ProcessPage`.
  Each one returns the trace of collaborator calls it makes: `FetchPage`, `GetKeywords`,
  `GetCredits`, `UpsertMovies` and `Sleep`. Each is proved to produce exactly the trace
  given by the recursive specification `RunCalls`, `PagesCalls` or `PageCalls`.
- `RunProperties`: what a run promises, stated over `RunCalls`. This covers which pages are
  fetched and in what order, where the run stops, what each upsert carries, and how many
  calls of each kind a page costs.
- `Scenarios`: concrete cases. `EnrichTestMovie`, `RunPipelineFlow` and `RunInvalidType`
  restate the repository's three pipeline tests. The rest are the model's own cases: the
  general lemmas those tests rest on, a run stopped by an empty first page, and a run with
  `run`'s default arguments.

Missing `order` values: the code sorts a member without an `order` as if its order were
999. One might expect such members to sort after every member with an explicit order. With
the 999 default this holds only for explicit orders below 999 (`CastOrder.MissingOrderSortsLast`).
`CastOrder.ExplicitOrderAboveDefaultSortsLast` shows a cast where an explicit order of 1000
sorts after a member with no order.

The repository's test of the `popular` case configures only the `top_rated` listing double.
`Scenarios.RunPipelineFlow` gives both listings the same sample page and proves the counts
that test expects for either kind.

## Model

| member | source | states |
|---|---|---|
| `Pipeline.KindOf` | src/pipeline.py:55-62 | the pipeline type selects the top-rated listing exactly for `"top_rated"` and the popular listing exactly for `"popular"`; every other type selects none |
| `Pipeline.Run` | src/pipeline.py:49-90 | an invalid type ends in `InvalidPipelineType` with no call at all; a valid type finishes with exactly the trace `RunCalls` of its listing; the arguments default to `"top_rated"` and 400 pages |
| `Pipeline.RunPages` | src/pipeline.py:64-88 | the page loop, with its early `break`, makes exactly the calls `RunCalls(api, kind, totalPages)` |
| `Pipeline.ProcessPage` | src/pipeline.py:72-88 | the per-page loop keeps `processed_batch` equal to the kept enrichments of the results seen so far, and makes exactly `PageCalls`: each result's lookups and pause, the upsert only for a non-empty batch, then the page pause |
| `Pipeline.Fetcher` | src/pipeline.py:55-60 | the endpoint function of the selected listing: top-rated for `TopRated`, popular for `Popular` |
| `Pipeline.Results` | src/pipeline.py:68 | a page's results; empty when the fetch failed or the page has no `results` |
| `Pipeline.LookupCalls` | src/pipeline.py:13-24 | no lookup for a falsy id; otherwise the keyword lookup then the credit lookup of that id |
| `Pipeline.Batch` | src/pipeline.py:72-76 | `processed_batch`: the records of a page's results that survive enrichment, in order |
| `Pipeline.EnrichCalls` | src/pipeline.py:73-79 | the calls of the per-result loop: each result's lookups followed by a 250 ms pause, in result order |
| `Pipeline.PageCalls` | src/pipeline.py:72-88 | a page's calls after its fetch: the per-result calls, one upsert of the batch when it is non-empty, then a 500 ms pause |
| `Pipeline.PagesCalls` | src/pipeline.py:64-88 | pages `page..total` in order: each is fetched; a page without results ends the run, otherwise its calls precede the next page's |
| `Pipeline.RunCalls` | src/pipeline.py:64-88 | the calls of a valid run: the pages from 1 to `total_pages` |
| `Pipeline.Enrich` | src/pipeline.py:11-47 | a result is enriched to a record exactly when its id and title are truthy |
| `Pipeline.Enrichments` | src/pipeline.py:73-74 | the i-th enrichment of a page is `_enrich_movie` of its i-th result |
| `Enrichment.Names` | src/pipeline.py:21 | the `name` of each element, one per element, in order; used for both the keyword and the cast comprehension |
| `Enrichment.KeywordsOf` | src/pipeline.py:17-21 | the keyword list is the names of the keyword objects in order; it is empty when the lookup failed or has no `keywords` |
| `Enrichment.TopCast` | src/pipeline.py:23-28 | at most 3 names, exactly the smaller of 3 and the cast length, being the first names of the stably sorted cast; empty when the lookup failed or has no `cast` |
| `Enrichment.EnrichFrom` | src/pipeline.py:11-47 | a record is returned exactly when `id` and `title` are truthy; it copies every listed field unchanged and adds `keywords` and `top_cast` |
| `Enrichment.KeptWhateverTheLookups` | src/pipeline.py:44-47 | whether a record is kept does not depend on what the lookups returned |
| `Enrichment.FailedLookupsDegradeToEmpty` | src/pipeline.py:17-28 | failed lookups keep a valid record, with empty keyword and cast lists |
| `Enrichment.TopCastOfBilledCast` | src/pipeline.py:27-28 | for a cast already in billing order, the top cast is the names of its first three members |
| `Enrichment.TopCastIsBestBilled` | src/pipeline.py:27-28 | the kept names come from a permutation of the cast, and no member left out has a smaller key than a kept one |
| `Movies.IdPresent` | src/pipeline.py:13-14 | Python truthiness of `movie.get('id')`: present and non-zero |
| `Movies.TitlePresent` | src/pipeline.py:45 | Python truthiness of the title: present and not the empty string |
| `CastOrder.Key` | src/pipeline.py:27 | the sort key of a cast member: its `order`, or 999 when it has none |
| `CastOrder.SortByOrder` | src/pipeline.py:27 | the sorted cast is ordered by key (default 999), is a permutation of the cast, and keeps the members of each key in input order |
| `CastOrder.StableSortIsUnique` | src/pipeline.py:27 | two sequences that are sorted by key and have the same members of each key in the same order are equal, so the stable sort is unique |
| `CastOrder.SortedCastUnchanged` | src/pipeline.py:27 | a cast already in billing order is left unchanged, so sorting twice equals sorting once |
| `CastOrder.SortedFromNeighbours` | src/pipeline.py:27 | a sequence whose keys do not decrease from each member to the next is sorted |
| `CastOrder.InsertSorted` | src/pipeline.py:27 | inserting into a sorted cast keeps it sorted |
| `CastOrder.InsertPermutes` | src/pipeline.py:27 | insertion adds exactly the inserted member |
| `CastOrder.InsertWithKey` | src/pipeline.py:27 | insertion puts the new member ahead of the members with its key and leaves the other keys' members alone |
| `CastOrder.InsertKeepsOrder` | src/pipeline.py:27 | one insertion step turns a stable sort of the tail into a stable sort of the whole cast |
| `CastOrder.MissingOrderSortsLast` | src/pipeline.py:27 | a member with an explicit order below 999 sorts before every member without an order |
| `CastOrder.ExplicitOrderAboveDefaultSortsLast` | src/pipeline.py:27 | an explicit order of 1000 sorts after a member with no order |
| `Wrappers.SomeIndices` | src/pipeline.py:73-76 | the kept values are exactly the present options, each once, in their input order |
| `RunProperties.FetchesOfPages` | src/pipeline.py:64-70 | the listing fetches of a run are those of `FetchedFrom`: one per page until the first page without results |
| `RunProperties.FetchedInOrder` | src/pipeline.py:64-70 | fetches are of pages `page, page+1, ...` in order, number at most the pages left, all but the last had results, and a run cut short ended on a page without results |
| `RunProperties.RunFetchesPagesInOrder` | src/pipeline.py:60-70 | a run fetches pages 1, 2, ..., n with the selected listing only, where n is at most `total_pages` and n is below it only when page n came back missing or empty |
| `RunProperties.RunEndsAtFirstEmptyPage` | src/pipeline.py:64-70 | when page `stop` is the first page without results, the run's last call is that page's fetch: no lookup, upsert or later fetch follows it |
| `RunProperties.EndsAtEmptyPage` | src/pipeline.py:64-70 | the same, for the pages from any starting page |
| `RunProperties.PageCallsFetchNothing` | src/pipeline.py:72-88 | processing a page fetches no listing page |
| `RunProperties.FalsyIdSkipsLookups` | src/pipeline.py:13-15 | a result with a falsy id is dropped with no keyword or credit lookup |
| `RunProperties.EnrichCallsLookUpEachInOrder` | src/pipeline.py:73-79 | a page looks up the keywords, and the credits, of each result with a truthy id exactly once, in the order of the results |
| `RunProperties.BatchIsStorable` | src/pipeline.py:73-76 | every record in a batch has a truthy id and title |
| `RunProperties.BatchIsKeptEnrichmentsInOrder` | src/pipeline.py:73-76 | the batch is exactly the non-`None` enrichments of the results, in input order |
| `RunProperties.KeptIndices` | src/pipeline.py:73-76 | the positions of the kept enrichments, in increasing order, with the batch record at each |
| `RunProperties.UpsertsCarryStorableRecords` | src/pipeline.py:81-83 | every upsert of a run carries a non-empty batch of records with truthy id and title |
| `RunProperties.EnrichCallsCounts` | src/pipeline.py:73-79 | enriching a page makes one keyword and one credit lookup per result with a truthy id, one pause per result, and no fetch or upsert |
| `RunProperties.PageCallCounts` | src/pipeline.py:72-88 | a page with results makes no listing fetch, the lookups above, one pause per result plus one, and exactly one upsert if and only if its batch is non-empty |
| `Scenarios.EnrichSampleMovie` | tests/test_pipeline.py:15-27 | a movie with a truthy id and title, with the sample keyword and credit responses, becomes a record with keywords `action`, `adventure` and the first three of four billed names |
| `Scenarios.EnrichTestMovie` | tests/test_pipeline.py:44-63 | the test's movie (id 1, "Test Movie") keeps id and title, with keywords `["action", "adventure"]` and top cast `["Actor A", "Actor B", "Actor C"]` |
| `Scenarios.TopThreeOfBilledCast` | src/pipeline.py:27-28 | a cast in billing order with at least three members keeps its first three names |
| `Scenarios.OneMoviePage` | src/pipeline.py:72-88 | a page of one kept movie makes its two lookups, a pause, one upsert of its record, and a pause |
| `Scenarios.RunTwoSamplePages` | tests/test_pipeline.py:72-77 | the full trace of a two-page run against endpoints that answer every page with the sample movie |
| `Scenarios.RunPipelineFlow` | tests/test_pipeline.py:76-93 | that run fetches pages 1 and 2 of the selected listing only, with two keyword lookups, two credit lookups and two upserts |
| `Scenarios.RunStopsAtEmptyFirstPage` | src/pipeline.py:66-70 | a missing or empty first page ends a five-page run after that single fetch |
| `Scenarios.RunWithDefaults` | src/pipeline.py:49 | `run()` with no arguments finishes with the trace of up to 400 pages of the top-rated listing |
| `Scenarios.RunInvalidType` | tests/test_pipeline.py:95-100 | `run('invalid_type', 1)` is rejected with no call |

## Left out

- HTTP requests, JSON decoding and error logging in the metadata client (`src/tmdb_client.py`) are not modelled. A failed request is the `None` response that the client gives `run`.
- The store client (`src/supabase_client.py`) is not modelled. An upsert is only the `UpsertMovies` call with its batch. `run` ignores the upsert's result, so its failure path is left out too.
- `time.sleep` is recorded only as a `Sleep` call with its length in milliseconds (250 and 500). No clock is modelled.
- `print` logging, the `argparse` entry point, client construction and credential loading in `__init__`, the Airflow DAG, the health-check plugin and `setup.py` are not part of this model.
- Keyword and cast objects always have a `name`. The `KeyError` that a missing `name` raises is not modelled.
- `order` is either absent or an integer. An explicit JSON `null` order makes Python's comparison raise `TypeError`; this is not modelled.
- `id` is an integer and `title` a string. Truthiness of other JSON types in those fields is not modelled.
- `popularity` and `vote_average` are copied as opaque literals. Floating-point values are not interpreted.
- `Upstream` makes each endpoint a fixed function of its argument. Within one run, the same page or the same id looked up twice gets the same answer. The trace records the calls made, not the responses received.
- `Pipeline.Run` does not model an exception raised while a page is processed, because the model's lookups always return a value.
