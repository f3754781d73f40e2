/**
 * Concrete cases of the model. `EnrichTestMovie`, `RunPipelineFlow` and `RunInvalidType`
 * restate the repository's three pipeline tests: one movie enriched from a keyword list and a
 * four-member cast, a two-page run of either listing, and an unknown pipeline type. The other
 * cases are the model's own: the general forms those tests rest on (`EnrichSampleMovie`,
 * `TopThreeOfBilledCast`, `OneMoviePage`, `RunTwoSamplePages`), a run stopped by an empty
 * first page, and a run with `run`'s default arguments.
 */
module Scenarios {
  import opened Wrappers
  import opened Movies
  import opened CastOrder
  import opened Enrichment
  import opened Pipeline
  import opened RunProperties

  /** A listing entry with only `id`, `title` and `genre_ids` set. */
  function Listed(id: int, title: string, genreIds: seq<int>): Summary {
    Summary(Some(id), Some(title), None, None, None, None, None, None, Some(genreIds))
  }

  function SampleKeywords(): KeywordsResponse {
    KeywordsResponse(Some([Keyword("action"), Keyword("adventure")]))
  }

  /** Four members, already in billing order, so that only the first three are kept. */
  function SampleCast(): seq<CastMember> {
    [CastMember("Actor A", Some(0)), CastMember("Actor B", Some(1)),
     CastMember("Actor C", Some(2)), CastMember("Actor D", Some(3))]
  }

  function SampleCredits(): CreditsResponse {
    CreditsResponse(Some(SampleCast()))
  }

  /** The record the enrichment of `Listed(id, title, genreIds)` yields with the sample lookups. */
  function SampleRecord(id: int, title: string, genreIds: seq<int>): Movie {
    Movie(id, Some(title), None, None, None, None, None, None, Some(genreIds),
          ["action", "adventure"], ["Actor A", "Actor B", "Actor C"])
  }

  lemma SampleCastSorted()
    ensures SortedByKey(SampleCast())
  {
    var cast := SampleCast();
    assert Key(cast[0]) == 0 && Key(cast[1]) == 1 && Key(cast[2]) == 2 && Key(cast[3]) == 3;
    SortedFromNeighbours(cast);
  }

  lemma SampleTopCast()
    ensures TopCast(Some(SampleCredits())) == ["Actor A", "Actor B", "Actor C"]
  {
    var cast := SampleCast();
    SampleCastSorted();
    TopThreeOfBilledCast(cast);
    assert cast[0].name == "Actor A" && cast[1].name == "Actor B" && cast[2].name == "Actor C";
  }

  /** A cast in billing order with at least three members keeps the first three names. */
  lemma TopThreeOfBilledCast(cast: seq<CastMember>)
    requires SortedByKey(cast) && |cast| >= 3
    ensures TopCast(Some(CreditsResponse(Some(cast)))) == [cast[0].name, cast[1].name, cast[2].name]
  {
    TopCastOfBilledCast(cast);
    var top := Names(cast[..3], MemberName);
    assert |top| == 3 && top[0] == cast[0].name && top[1] == cast[1].name && top[2] == cast[2].name;
  }

  lemma SampleKeywordNames()
    ensures KeywordsOf(Some(SampleKeywords())) == ["action", "adventure"]
  {
    var names := KeywordsOf(Some(SampleKeywords()));
    assert |names| == 2 && names[0] == "action" && names[1] == "adventure";
  }

  /**
   * A movie with an id and a title keeps both, its keyword names in order, and the first
   * three billed names of a four-member cast.
   */
  lemma EnrichSampleMovie(id: int, title: string, genreIds: seq<int>)
    requires id != 0 && title != ""
    ensures EnrichFrom(Listed(id, title, genreIds), Some(SampleKeywords()), Some(SampleCredits()))
         == Some(SampleRecord(id, title, genreIds))
  {
    SampleTopCast();
    SampleKeywordNames();
  }

  /** The enrichment checked by the repository's own test: id 1, "Test Movie", genre 18. */
  lemma EnrichTestMovie()
    ensures var r := EnrichFrom(Listed(1, "Test Movie", [18]), Some(SampleKeywords()), Some(SampleCredits()));
      && r.Some? && r.value.id == 1 && r.value.title == Some("Test Movie")
      && r.value.keywords == ["action", "adventure"]
      && |r.value.topCast| == 3 && r.value.topCast == ["Actor A", "Actor B", "Actor C"]
  {
    EnrichSampleMovie(1, "Test Movie", [18]);
  }

  function SamplePage(): PageResponse {
    PageResponse(Some([Listed(1, "Movie 1", [28, 12])]))
  }

  /** Endpoints that answer every page of both listings with the sample page, and every lookup with the samples. */
  function SampleUpstream(): Upstream {
    Upstream(
      page => Some(SamplePage()),
      page => Some(SamplePage()),
      id => Some(SampleKeywords()),
      id => Some(SampleCredits()))
  }

  /** The calls for a page holding one movie with id `id` whose enrichment is `record`. */
  function OneMovieTrace(id: int, record: Movie): seq<Call> {
    [GetKeywords(id), GetCredits(id), Sleep(MovieDelayMillis), UpsertMovies([record]), Sleep(PageDelayMillis)]
  }

  /** A page of one movie that is kept costs its two lookups, a pause, the upsert of its record and a pause. */
  lemma OneMoviePage(api: Upstream, movie: Summary, record: Movie)
    requires Enrich(api, movie) == Some(record)
    ensures PageCalls(api, [movie]) == OneMovieTrace(movie.id.value, record)
  {
    var results := [movie];
    assert results[..0] == [];
    var e := Enrichments(api, results);
    assert e == [Some(record)];
    assert e[..0] == [];
    assert Batch(api, results) == [record];
    var enrich := [GetKeywords(movie.id.value), GetCredits(movie.id.value), Sleep(MovieDelayMillis)];
    assert EnrichCalls(api, results) == enrich;
    assert PageCalls(api, results) == enrich + [UpsertMovies([record])] + [Sleep(PageDelayMillis)];
  }

  /** The calls made for the sample page once it is fetched. */
  lemma SamplePageCalls()
    ensures PageCalls(SampleUpstream(), SamplePage().results.value) == OneMovieTrace(1, SampleRecord(1, "Movie 1", [28, 12]))
  {
    var api, results := SampleUpstream(), SamplePage().results.value;
    var movie := results[0];
    assert results == [movie];
    assert api.keywordsOf(1) == Some(SampleKeywords());
    assert api.creditsOf(1) == Some(SampleCredits());
    EnrichSampleMovie(1, "Movie 1", [28, 12]);
    OneMoviePage(api, movie, SampleRecord(1, "Movie 1", [28, 12]));
  }

  /** The whole trace of a two-page run of either listing against the sample endpoints. */
  lemma RunTwoSamplePages(kind: Kind)
    ensures RunCalls(SampleUpstream(), kind, 2)
         == [FetchPage(kind, 1)] + (OneMovieTrace(1, SampleRecord(1, "Movie 1", [28, 12])) + ([FetchPage(kind, 2)] + (OneMovieTrace(1, SampleRecord(1, "Movie 1", [28, 12])) + [])))
  {
    var api := SampleUpstream();
    SamplePageCalls();
    assert Results(Fetcher(api, kind)(1)) == SamplePage().results.value;
    assert Results(Fetcher(api, kind)(2)) == SamplePage().results.value;
    PagesCallsAtFullPage(api, kind, 1, 2);
    PagesCallsAtFullPage(api, kind, 2, 2);
  }

  /** The counts of a one-movie page trace. */
  lemma OneMovieTraceCounts(id: int, record: Movie)
    ensures var t := OneMovieTrace(id, record);
      && Fetches(t) == []
      && Count(t, ListingFetch) == 0
      && Count(t, KeywordLookup) == 1
      && Count(t, CreditLookup) == 1
      && Count(t, Upsert) == 1
  {
    var t5 := [Sleep(PageDelayMillis)];
    var t4 := [UpsertMovies([record])] + t5;
    var t3 := [Sleep(MovieDelayMillis)] + t4;
    var t2 := [GetCredits(id)] + t3;
    assert OneMovieTrace(id, record) == [GetKeywords(id)] + t2;
    CountsOfCons(Sleep(PageDelayMillis), []);
    CountsOfCons(UpsertMovies([record]), t5);
    CountsOfCons(Sleep(MovieDelayMillis), t4);
    CountsOfCons(GetCredits(id), t3);
    CountsOfCons(GetKeywords(id), t2);
  }

  /** Two fetched pages with the same trace `t` after each fetch. */
  lemma TwoPagesCounts(kind: Kind, t: seq<Call>)
    requires Fetches(t) == [] && Count(t, ListingFetch) == 0
    ensures var calls := [FetchPage(kind, 1)] + (t + ([FetchPage(kind, 2)] + (t + [])));
      && Fetches(calls) == [FetchPage(kind, 1), FetchPage(kind, 2)]
      && Count(calls, ListingFetch) == 2
      && (forall op :: op != ListingFetch ==> Count(calls, op) == 2 * Count(t, op))
  {
    var f1, f2 := [FetchPage(kind, 1)], [FetchPage(kind, 2)];
    assert t + [] == t;
    assert f1[1..] == [] && f2[1..] == [];
    CountAppend(f2, t);
    CountAppend(t, f2 + t);
    CountAppend(f1, t + (f2 + t));
    FetchesAppend(f2, t);
    FetchesSkip(f1, t, f2 + t);
    FetchesOfFetch(kind, 1);
    FetchesOfFetch(kind, 2);
  }

  /**
   * A two-page run fetches pages 1 and 2 of the selected listing only, and makes two keyword
   * lookups, two credit lookups and two upserts.
   */
  lemma RunPipelineFlow(kind: Kind)
    ensures var calls := RunCalls(SampleUpstream(), kind, 2);
      && Fetches(calls) == [FetchPage(kind, 1), FetchPage(kind, 2)]
      && Count(calls, ListingFetch) == 2
      && Count(calls, KeywordLookup) == 2
      && Count(calls, CreditLookup) == 2
      && Count(calls, Upsert) == 2
  {
    var record := SampleRecord(1, "Movie 1", [28, 12]);
    RunTwoSamplePages(kind);
    OneMovieTraceCounts(1, record);
    TwoPagesCounts(kind, OneMovieTrace(1, record));
  }

  function EmptyUpstream(): Upstream {
    Upstream(page => None, page => Some(PageResponse(Some([]))), id => None, id => None)
  }

  /** A first page that is missing or has no results ends the run after that one fetch, whatever `totalPages` allows. */
  lemma RunStopsAtEmptyFirstPage(kind: Kind)
    ensures RunCalls(EmptyUpstream(), kind, 5) == [FetchPage(kind, 1)]
  {
    PagesCallsAtEmptyPage(EmptyUpstream(), kind, 1, 5);
  }

  /** `run()` with no arguments walks up to 400 pages of the top-rated listing. */
  method RunWithDefaults(api: Upstream) returns (outcome: Outcome, calls: seq<Call>)
    ensures outcome == Finished && calls == RunCalls(api, TopRated, 400)
  {
    outcome, calls := Run(api);
  }

  /** An unknown pipeline type is rejected before any call. */
  method RunInvalidType(api: Upstream) returns (outcome: Outcome, calls: seq<Call>)
    ensures outcome == InvalidPipelineType("invalid_type") && calls == []
  {
    outcome, calls := Run(api, "invalid_type", 1);
  }
}
