/**
 * `DataPipeline.run`: choose the listing fetcher for the pipeline type, walk pages
 * 1..total_pages, enrich every result of a page in order, upsert the page's valid records
 * in one batch, and stop at the first page that comes back missing or without results.
 *
 * The listing and detail endpoints are the four functions of an `Upstream` value (a request
 * that failed answers `None`); the store is only the `UpsertMovies` event it receives. Every
 * collaborator call and every pause is recorded in order as a `Call`, the way the test doubles
 * record them. `Run` is the loop; `RunCalls` is the trace it must produce, defined page by page.
 */
module Pipeline {
  import opened Wrappers
  import opened Movies
  import opened Enrichment

  /** The two listing categories. */
  datatype Kind = TopRated | Popular

  /** The detail and listing endpoints as seen by the pipeline. */
  datatype Upstream = Upstream(
    topRated: int -> Option<PageResponse>,
    popular: int -> Option<PageResponse>,
    keywordsOf: int -> Option<KeywordsResponse>,
    creditsOf: int -> Option<CreditsResponse>)

  /** Body of a listing page: its `results` list, when present. */
  datatype PageResponse = PageResponse(results: Option<seq<Summary>>)

  /** One observable step of a run. */
  datatype Call =
    | FetchPage(kind: Kind, page: int)
    | GetKeywords(movieId: int)
    | GetCredits(movieId: int)
    | UpsertMovies(batch: seq<Movie>)
    | Sleep(millis: nat)

  /** How `run` ends: normally, or with the `ValueError` for an unknown pipeline type. */
  datatype Outcome = Finished | InvalidPipelineType(pipelineType: string)

  /** Pause after each movie, and after each page that had results. */
  const MovieDelayMillis: nat := 250
  const PageDelayMillis: nat := 500

  /** The `fetcher_method_map` lookup. */
  function KindOf(pipelineType: string): (k: Option<Kind>)
    ensures k == Some(TopRated) <==> pipelineType == "top_rated"
    ensures k == Some(Popular) <==> pipelineType == "popular"
  {
    if pipelineType == "top_rated" then Some(TopRated)
    else if pipelineType == "popular" then Some(Popular)
    else None
  }

  function Fetcher(api: Upstream, kind: Kind): int -> Option<PageResponse> {
    match kind
    case TopRated => api.topRated
    case Popular => api.popular
  }

  /** The page's results; empty when the fetch failed or `results` is absent (`not movies_data or not movies_data.get('results')`). */
  function Results(resp: Option<PageResponse>): seq<Summary> {
    if resp.Some? && resp.value.results.Some? then resp.value.results.value else []
  }

  /** The lookups `_enrich_movie` issues: none for a falsy id, else keywords then credits. */
  function LookupCalls(movie: Summary): seq<Call> {
    if IdPresent(movie.id) then [GetKeywords(movie.id.value), GetCredits(movie.id.value)] else []
  }

  /** `_enrich_movie(movie)` against the upstream endpoints. */
  function Enrich(api: Upstream, movie: Summary): (r: Option<Movie>)
    ensures r.Some? <==> IdPresent(movie.id) && TitlePresent(movie.title)
  {
    if !IdPresent(movie.id) then None
    else EnrichFrom(movie, api.keywordsOf(movie.id.value), api.creditsOf(movie.id.value))
  }

  /** `_enrich_movie` applied to each of `results`, in order. */
  function Enrichments(api: Upstream, results: seq<Summary>): (r: seq<Option<Movie>>)
    ensures |r| == |results|
    ensures forall i :: 0 <= i < |r| ==> r[i] == Enrich(api, results[i])
  {
    if results == [] then []
    else
      var n := |results| - 1;
      var init := results[..n];
      assert forall i :: 0 <= i < n ==> init[i] == results[i];
      Enrichments(api, init) + [Enrich(api, results[n])]
  }

  /** The records of `results` that survive enrichment, in order: the page's `processed_batch`. */
  function Batch(api: Upstream, results: seq<Summary>): seq<Movie> {
    Somes(Enrichments(api, results))
  }

  /** The calls made while enriching `results`: each movie's lookups, then a pause. */
  function EnrichCalls(api: Upstream, results: seq<Summary>): seq<Call> {
    if results == [] then []
    else
      EnrichCalls(api, results[..|results| - 1])
      + LookupCalls(results[|results| - 1]) + [Sleep(MovieDelayMillis)]
  }

  /** The calls made for a page that had results, after it was fetched. */
  function PageCalls(api: Upstream, results: seq<Summary>): seq<Call> {
    var batch := Batch(api, results);
    EnrichCalls(api, results) + (if batch != [] then [UpsertMovies(batch)] else []) + [Sleep(PageDelayMillis)]
  }

  /** The calls made for pages `page`..`total`, stopping after a page without results. */
  function PagesCalls(api: Upstream, kind: Kind, page: int, total: int): seq<Call>
    decreases total - page + 1
  {
    if page > total then []
    else
      var results := Results(Fetcher(api, kind)(page));
      [FetchPage(kind, page)]
      + if results == [] then [] else PageCalls(api, results) + PagesCalls(api, kind, page + 1, total)
  }

  /** The calls of a whole run over a valid pipeline type. */
  function RunCalls(api: Upstream, kind: Kind, totalPages: int): seq<Call> {
    PagesCalls(api, kind, 1, totalPages)
  }

  /**
   * The body of `run`'s page loop once a page has results: enrich each result in order,
   * keep the valid records, pause after each, then upsert the batch if it is non-empty and
   * pause before the next page.
   */
  method ProcessPage(api: Upstream, results: seq<Summary>) returns (calls: seq<Call>)
    ensures calls == PageCalls(api, results)
  {
    var processedBatch: seq<Movie> := [];
    calls := [];
    var i := 0;
    while i < |results|
      invariant 0 <= i <= |results|
      invariant processedBatch == Batch(api, results[..i])
      invariant calls == EnrichCalls(api, results[..i])
    {
      var movie := results[i];
      calls := calls + LookupCalls(movie);
      var enriched := Enrich(api, movie);
      if enriched.Some? {
        processedBatch := processedBatch + [enriched.value];
      }
      calls := calls + [Sleep(MovieDelayMillis)];
      assert results[..i + 1][..i] == results[..i];
      assert Enrichments(api, results[..i + 1])[..i] == Enrichments(api, results[..i]);
      i := i + 1;
    }
    assert results[..i] == results;
    if processedBatch != [] {
      calls := calls + [UpsertMovies(processedBatch)];
    }
    calls := calls + [Sleep(PageDelayMillis)];
  }

  /** One page of the loop, after the calls `done`: its fetch, then either the stop or the page's calls and the rest. */
  lemma {:induction false} PagesCallsStep(api: Upstream, kind: Kind, page: int, total: int, done: seq<Call>)
    requires page <= total
    ensures var results := Results(Fetcher(api, kind)(page));
      done + PagesCalls(api, kind, page, total)
      == if results == [] then done + [FetchPage(kind, page)]
         else done + [FetchPage(kind, page)] + PageCalls(api, results) + PagesCalls(api, kind, page + 1, total)
  {
    var results := Results(Fetcher(api, kind)(page));
    if results != [] {
      Regroup(done, [FetchPage(kind, page)], PageCalls(api, results), PagesCalls(api, kind, page + 1, total));
    }
  }

  /** Regrouping the concatenation that a page step of the loop appends. */
  lemma Regroup<T>(a: seq<T>, b: seq<T>, c: seq<T>, d: seq<T>)
    ensures a + b + c + d == a + (b + c + d)
  {
  }

  /**
   * `DataPipeline.run(pipeline_type, total_pages)`, returning how it ended and the calls it made.
   * The defaults are `run`'s own: the top-rated listing over 400 pages.
   */
  method Run(api: Upstream, pipelineType: string := "top_rated", totalPages: int := 400) returns (outcome: Outcome, calls: seq<Call>)
    ensures KindOf(pipelineType).None? ==> outcome == InvalidPipelineType(pipelineType) && calls == []
    ensures KindOf(pipelineType).Some? ==>
      outcome == Finished && calls == RunCalls(api, KindOf(pipelineType).value, totalPages)
  {
    var found := KindOf(pipelineType);
    if found.None? {
      return InvalidPipelineType(pipelineType), [];
    }
    calls := RunPages(api, found.value, totalPages);
    outcome := Finished;
  }

  /** The page loop of `run`, once the fetcher for `kind` has been selected. */
  method RunPages(api: Upstream, kind: Kind, totalPages: int) returns (calls: seq<Call>)
    ensures calls == RunCalls(api, kind, totalPages)
  {
    calls := [];
    var fetcher := Fetcher(api, kind);
    var page := 1;
    while page <= totalPages
      invariant 1 <= page
      invariant calls + PagesCalls(api, kind, page, totalPages) == RunCalls(api, kind, totalPages)
      decreases totalPages - page
    {
      PagesCallsStep(api, kind, page, totalPages, calls);
      calls := calls + [FetchPage(kind, page)];
      var moviesData := fetcher(page);
      var results := Results(moviesData);
      if results == [] {
        break;
      }
      var pageCalls := ProcessPage(api, results);
      calls := calls + pageCalls;
      page := page + 1;
    }
  }
}
