/**
 * What a run promises, stated over the trace `RunCalls` that `Pipeline.Run` is proved to
 * produce: which pages are fetched and where the loop stops, what reaches the store, and
 * how many calls each page costs.
 */
module RunProperties {
  import opened Wrappers
  import opened Movies
  import opened Pipeline

  /** The listing fetches of a trace, in order. */
  function Fetches(calls: seq<Call>): seq<Call>
  {
    if calls == [] then []
    else (if calls[0].FetchPage? then [calls[0]] else []) + Fetches(calls[1..])
  }

  lemma {:induction false} FetchesAppend(a: seq<Call>, b: seq<Call>)
    ensures Fetches(a + b) == Fetches(a) + Fetches(b)
  {
    if a == [] {
      assert a + b == b;
    } else {
      var ab := a + b;
      assert ab[0] == a[0];
      assert ab[1..] == a[1..] + b;
      FetchesAppend(a[1..], b);
      var h := if a[0].FetchPage? then [a[0]] else [];
      calc {
        Fetches(ab);
        h + Fetches(a[1..] + b);
        h + (Fetches(a[1..]) + Fetches(b));
        (h + Fetches(a[1..])) + Fetches(b);
      }
    }
  }

  lemma {:induction false} EnrichCallsFetchNothing(api: Upstream, results: seq<Summary>)
    ensures Fetches(EnrichCalls(api, results)) == []
  {
    if results != [] {
      var init := results[..|results| - 1];
      EnrichCallsFetchNothing(api, init);
      var movie := results[|results| - 1];
      FetchesAppend(EnrichCalls(api, init), LookupCalls(movie));
      FetchesAppend(EnrichCalls(api, init) + LookupCalls(movie), [Sleep(MovieDelayMillis)]);
      LookupCallsFetchNothing(movie);
      assert Fetches([Sleep(MovieDelayMillis)]) == [] by {
        assert [Sleep(MovieDelayMillis)][1..] == [];
      }
    }
  }

  lemma LookupCallsFetchNothing(movie: Summary)
    ensures Fetches(LookupCalls(movie)) == []
  {
    if IdPresent(movie.id) {
      var tail := [GetCredits(movie.id.value)];
      assert tail[1..] == [];
      assert Fetches(tail) == [];
      assert LookupCalls(movie)[1..] == tail;
    }
  }

  lemma FetchesOfFetch(kind: Kind, page: int)
    ensures Fetches([FetchPage(kind, page)]) == [FetchPage(kind, page)]
  {
    assert [FetchPage(kind, page)][1..] == [];
  }

  /** Processing a page never fetches another listing page. */
  lemma {:induction false} PageCallsFetchNothing(api: Upstream, results: seq<Summary>)
    ensures Fetches(PageCalls(api, results)) == []
  {
    var batch := Batch(api, results);
    var upsert := if batch != [] then [UpsertMovies(batch)] else [];
    EnrichCallsFetchNothing(api, results);
    FetchesAppend(EnrichCalls(api, results), upsert);
    FetchesAppend(EnrichCalls(api, results) + upsert, [Sleep(PageDelayMillis)]);
  }

  lemma FetchesSkip(head: seq<Call>, middle: seq<Call>, rest: seq<Call>)
    requires Fetches(middle) == []
    ensures Fetches(head + (middle + rest)) == Fetches(head) + Fetches(rest)
  {
    FetchesAppend(middle, rest);
    FetchesAppend(head, middle + rest);
  }

  /** The listing fetches of pages `page`..`total`: each page's, up to the first page without results. */
  function FetchedFrom(api: Upstream, kind: Kind, page: int, total: int): seq<Call>
    decreases total - page + 1
  {
    if page > total then []
    else
      [FetchPage(kind, page)]
      + if Results(Fetcher(api, kind)(page)) == [] then [] else FetchedFrom(api, kind, page + 1, total)
  }

  lemma {:induction false} FetchesOfPages(api: Upstream, kind: Kind, page: int, total: int)
    ensures Fetches(PagesCalls(api, kind, page, total)) == FetchedFrom(api, kind, page, total)
    decreases total - page + 1
  {
    if page <= total {
      var results := Results(Fetcher(api, kind)(page));
      var head := [FetchPage(kind, page)];
      FetchesOfFetch(kind, page);
      if results == [] {
        PagesCallsAtEmptyPage(api, kind, page, total);
      } else {
        PagesCallsAtFullPage(api, kind, page, total);
        PageCallsFetchNothing(api, results);
        FetchesOfPages(api, kind, page + 1, total);
        FetchesSkip(head, PageCalls(api, results), PagesCalls(api, kind, page + 1, total));
      }
    }
  }

  /** Pages `page`, `page + 1`, ... are fetched in order, with `kind`'s fetcher, until the first page without results. */
  lemma {:induction false} FetchedInOrder(api: Upstream, kind: Kind, page: int, total: int)
    ensures var f := FetchedFrom(api, kind, page, total);
      && (forall i :: 0 <= i < |f| ==> f[i] == FetchPage(kind, page + i))
      && (page <= total ==> 1 <= |f| <= total - page + 1)
      && (page > total ==> f == [])
      && (forall q :: page <= q < page + |f| - 1 ==> Results(Fetcher(api, kind)(q)) != [])
      && (1 <= |f| < total - page + 1 ==> Results(Fetcher(api, kind)(page + |f| - 1)) == [])
    decreases total - page + 1
  {
    if page <= total && Results(Fetcher(api, kind)(page)) != [] {
      FetchedInOrder(api, kind, page + 1, total);
      var f := FetchedFrom(api, kind, page, total);
      var g := FetchedFrom(api, kind, page + 1, total);
      assert f == [FetchPage(kind, page)] + g;
      forall i | 0 <= i < |f| ensures f[i] == FetchPage(kind, page + i) {
        if i > 0 {
          assert f[i] == g[i - 1];
        }
      }
    }
  }

  /**
   * A run fetches pages 1, 2, ..., n with the selected fetcher only, where n is at most
   * `totalPages`, every page before n had results, and n falls short of `totalPages` only when
   * page n came back missing or empty.
   */
  lemma {:induction false} RunFetchesPagesInOrder(api: Upstream, kind: Kind, totalPages: int)
    ensures var f := Fetches(RunCalls(api, kind, totalPages));
      && (forall i :: 0 <= i < |f| ==> f[i] == FetchPage(kind, i + 1))
      && (totalPages < 1 ==> f == [])
      && (totalPages >= 1 ==> 1 <= |f| <= totalPages)
      && (forall q :: 1 <= q < |f| ==> Results(Fetcher(api, kind)(q)) != [])
      && (1 <= |f| < totalPages ==> Results(Fetcher(api, kind)(|f|)) == [])
  {
    FetchesOfPages(api, kind, 1, totalPages);
    FetchedInOrder(api, kind, 1, totalPages);
  }

  /** Every page in `page`..`stop - 1` came back with results. */
  predicate FullPages(api: Upstream, kind: Kind, page: int, stop: int)
    decreases stop - page
  {
    page >= stop || (Results(Fetcher(api, kind)(page)) != [] && FullPages(api, kind, page + 1, stop))
  }

  lemma {:induction false} FullPagesFromAll(api: Upstream, kind: Kind, page: int, stop: int)
    requires forall q :: page <= q < stop ==> Results(Fetcher(api, kind)(q)) != []
    ensures FullPages(api, kind, page, stop)
    decreases stop - page
  {
    if page < stop {
      FullPagesFromAll(api, kind, page + 1, stop);
    }
  }

  /** From `page` on, when `stop` is the first page without results, the last call is its fetch. */
  lemma {:induction false} EndsAtEmptyPage(api: Upstream, kind: Kind, page: int, total: int, stop: int)
    requires page <= stop <= total
    requires FullPages(api, kind, page, stop)
    requires Results(Fetcher(api, kind)(stop)) == []
    ensures var calls := PagesCalls(api, kind, page, total);
      calls != [] && calls[|calls| - 1] == FetchPage(kind, stop)
    decreases stop - page
  {
    if page == stop {
      PagesCallsAtEmptyPage(api, kind, page, total);
    } else {
      EndsAtEmptyPage(api, kind, page + 1, total, stop);
      PagesCallsAtFullPage(api, kind, page, total);
      LastOfAppend([FetchPage(kind, page)] + PageCalls(api, Results(Fetcher(api, kind)(page))),
                   PagesCalls(api, kind, page + 1, total));
    }
  }

  /**
   * When page `stop` is the first page that comes back missing or without results, the run's
   * last call is that page's fetch: nothing is enriched or upserted for it and no later page
   * is fetched.
   */
  lemma RunEndsAtFirstEmptyPage(api: Upstream, kind: Kind, totalPages: int, stop: int)
    requires 1 <= stop <= totalPages
    requires forall q :: 1 <= q < stop ==> Results(Fetcher(api, kind)(q)) != []
    requires Results(Fetcher(api, kind)(stop)) == []
    ensures var calls := RunCalls(api, kind, totalPages);
      calls != [] && calls[|calls| - 1] == FetchPage(kind, stop)
  {
    FullPagesFromAll(api, kind, 1, stop);
    EndsAtEmptyPage(api, kind, 1, totalPages, stop);
  }

  lemma LastOfAppend(a: seq<Call>, b: seq<Call>)
    requires b != []
    ensures (a + b)[|a + b| - 1] == b[|b| - 1]
  {
  }

  lemma PagesCallsAtEmptyPage(api: Upstream, kind: Kind, page: int, total: int)
    requires page <= total && Results(Fetcher(api, kind)(page)) == []
    ensures PagesCalls(api, kind, page, total) == [FetchPage(kind, page)]
  {
  }

  lemma PagesCallsAtFullPage(api: Upstream, kind: Kind, page: int, total: int)
    requires page <= total && Results(Fetcher(api, kind)(page)) != []
    ensures PagesCalls(api, kind, page, total)
      == [FetchPage(kind, page)] + (PageCalls(api, Results(Fetcher(api, kind)(page))) + PagesCalls(api, kind, page + 1, total))
  {
  }

  /** A record that may be written: a truthy id and a truthy title. */
  predicate Storable(m: Movie) {
    m.id != 0 && TitlePresent(m.title)
  }

  /** Every record of a batch survived enrichment. */
  lemma BatchIsStorable(api: Upstream, results: seq<Summary>)
    ensures forall m :: m in Batch(api, results) ==> Storable(m)
  {
    var idx := SomeIndices(Enrichments(api, results));
    forall m | m in Batch(api, results) ensures Storable(m) {
      var j :| 0 <= j < |Batch(api, results)| && Batch(api, results)[j] == m;
      assert Enrich(api, results[idx[j]]) == Some(m);
    }
  }

  /**
   * `idx` lists, in increasing order, the positions of the results whose enrichment is kept,
   * each with the batch record it contributes.
   */
  ghost predicate KeptPositions(api: Upstream, results: seq<Summary>, idx: seq<nat>) {
    var batch := Batch(api, results);
    && |idx| == |batch|
    && (forall j :: 0 <= j < |idx| ==> idx[j] < |results| && Enrich(api, results[idx[j]]) == Some(batch[j]))
    && (forall j, k :: 0 <= j < k < |idx| ==> idx[j] < idx[k])
    && (forall i :: 0 <= i < |results| && Enrich(api, results[i]).Some? ==> i in idx)
  }

  /** The batch is exactly the non-None enrichments of `results`, in input order. */
  lemma BatchIsKeptEnrichmentsInOrder(api: Upstream, results: seq<Summary>)
    ensures exists idx: seq<nat> :: KeptPositions(api, results, idx)
  {
    KeptIndices(api, results);
  }

  lemma KeptIndices(api: Upstream, results: seq<Summary>)
    ensures KeptPositions(api, results, SomeIndices(Enrichments(api, results)))
  {
    var batch := Batch(api, results);
    var e := Enrichments(api, results);
    var idx := SomeIndices(e);
    forall j | 0 <= j < |idx| ensures idx[j] < |results| && Enrich(api, results[idx[j]]) == Some(batch[j]) {
      assert e[idx[j]] == Some(batch[j]);
    }
    forall i | 0 <= i < |results| && Enrich(api, results[i]).Some? ensures i in idx {
      assert e[i].Some?;
    }
  }

  /** Every upsert of a run carries a non-empty batch of storable records. */
  lemma {:induction false} UpsertsCarryStorableRecords(api: Upstream, kind: Kind, page: int, total: int)
    ensures forall c :: c in PagesCalls(api, kind, page, total) && c.UpsertMovies? ==>
      c.batch != [] && forall m :: m in c.batch ==> Storable(m)
    decreases total - page + 1
  {
    if page <= total {
      var results := Results(Fetcher(api, kind)(page));
      if results != [] {
        UpsertsCarryStorableRecords(api, kind, page + 1, total);
        BatchIsStorable(api, results);
        EnrichCallsUpsertNothing(api, results);
      }
    }
  }

  lemma {:induction false} EnrichCallsUpsertNothing(api: Upstream, results: seq<Summary>)
    ensures forall c :: c in EnrichCalls(api, results) ==> !c.UpsertMovies?
  {
    if results != [] {
      EnrichCallsUpsertNothing(api, results[..|results| - 1]);
    }
  }

  /** The kinds of call a test double counts. */
  datatype Op = ListingFetch | KeywordLookup | CreditLookup | Upsert | Pause

  function OpOf(c: Call): Op {
    match c
    case FetchPage(_, _) => ListingFetch
    case GetKeywords(_) => KeywordLookup
    case GetCredits(_) => CreditLookup
    case UpsertMovies(_) => Upsert
    case Sleep(_) => Pause
  }

  /** How many calls of `calls` are of kind `op`. */
  function Count(calls: seq<Call>, op: Op): (n: nat)
    ensures n <= |calls|
  {
    if calls == [] then 0 else (if OpOf(calls[0]) == op then 1 else 0) + Count(calls[1..], op)
  }

  lemma {:induction false} CountAppend(a: seq<Call>, b: seq<Call>)
    ensures forall op :: Count(a + b, op) == Count(a, op) + Count(b, op)
  {
    if a == [] {
      assert a + b == b;
    } else {
      var ab := a + b;
      assert ab[0] == a[0];
      assert ab[1..] == a[1..] + b;
      CountAppend(a[1..], b);
    }
  }

  /** Counting and fetch-filtering a call followed by more calls. */
  lemma CountsOfCons(c: Call, rest: seq<Call>)
    ensures Fetches([c] + rest) == (if c.FetchPage? then [c] else []) + Fetches(rest)
    ensures forall op :: Count([c] + rest, op) == (if OpOf(c) == op then 1 else 0) + Count(rest, op)
  {
    assert ([c] + rest)[0] == c;
    assert ([c] + rest)[1..] == rest;
  }

  lemma LookupCallsCounts(movie: Summary)
    ensures var n := if IdPresent(movie.id) then 1 else 0;
      && Count(LookupCalls(movie), ListingFetch) == 0
      && Count(LookupCalls(movie), KeywordLookup) == n
      && Count(LookupCalls(movie), CreditLookup) == n
      && Count(LookupCalls(movie), Upsert) == 0
      && Count(LookupCalls(movie), Pause) == 0
      && Count([Sleep(MovieDelayMillis)], Pause) == 1
      && Count([Sleep(PageDelayMillis)], Pause) == 1
  {
    if IdPresent(movie.id) {
      var calls := LookupCalls(movie);
      assert calls[1..][1..] == [];
    }
    assert [Sleep(MovieDelayMillis)][1..] == [];
  }

  /** The truthy ids of `results`, in order: the movies that cause detail lookups. */
  function PresentIds(results: seq<Summary>): seq<int> {
    if results == [] then []
    else
      var movie := results[|results| - 1];
      PresentIds(results[..|results| - 1]) + if IdPresent(movie.id) then [movie.id.value] else []
  }

  /** The movie ids of the `op` lookups of a trace, in order (`op` is KeywordLookup or CreditLookup). */
  function LookupIds(calls: seq<Call>, op: Op): seq<int> {
    if calls == [] then []
    else
      var c := calls[0];
      (if OpOf(c) == op && (c.GetKeywords? || c.GetCredits?) then [c.movieId] else []) + LookupIds(calls[1..], op)
  }

  lemma {:induction false} LookupIdsAppend(a: seq<Call>, b: seq<Call>, op: Op)
    ensures LookupIds(a + b, op) == LookupIds(a, op) + LookupIds(b, op)
  {
    if a == [] {
      assert a + b == b;
    } else {
      var ab := a + b;
      assert ab[0] == a[0];
      assert ab[1..] == a[1..] + b;
      LookupIdsAppend(a[1..], b, op);
      var c := a[0];
      var h := if OpOf(c) == op && (c.GetKeywords? || c.GetCredits?) then [c.movieId] else [];
      calc {
        LookupIds(ab, op);
        h + LookupIds(a[1..] + b, op);
        h + (LookupIds(a[1..], op) + LookupIds(b, op));
        (h + LookupIds(a[1..], op)) + LookupIds(b, op);
      }
    }
  }

  lemma LookupCallsIds(movie: Summary, op: Op)
    requires op == KeywordLookup || op == CreditLookup
    ensures LookupIds(LookupCalls(movie), op) == if IdPresent(movie.id) then [movie.id.value] else []
    ensures LookupIds([Sleep(MovieDelayMillis)], op) == []
  {
    if IdPresent(movie.id) {
      var id := movie.id.value;
      var tail := [GetCredits(id)];
      assert tail[1..] == [];
      assert LookupIds(tail, op) == if op == CreditLookup then [id] else [];
      assert LookupCalls(movie)[1..] == tail;
    }
    assert [Sleep(MovieDelayMillis)][1..] == [];
  }

  /**
   * Enriching a page looks up the keywords, and the credits, of each result with a truthy id
   * exactly once, in the order of the results; results with a falsy id cause no lookup.
   */
  lemma {:induction false} EnrichCallsLookUpEachInOrder(api: Upstream, results: seq<Summary>, op: Op)
    requires op == KeywordLookup || op == CreditLookup
    ensures LookupIds(EnrichCalls(api, results), op) == PresentIds(results)
  {
    if results != [] {
      var init := results[..|results| - 1];
      var movie := results[|results| - 1];
      EnrichCallsLookUpEachInOrder(api, init, op);
      LookupCallsIds(movie, op);
      LookupIdsAppend(EnrichCalls(api, init), LookupCalls(movie), op);
      LookupIdsAppend(EnrichCalls(api, init) + LookupCalls(movie), [Sleep(MovieDelayMillis)], op);
    }
  }

  /** A summary with a falsy id is dropped without any detail lookup. */
  lemma FalsyIdSkipsLookups(api: Upstream, movie: Summary)
    requires !IdPresent(movie.id)
    ensures Enrich(api, movie) == None
    ensures LookupCalls(movie) == []
  {
  }

  lemma {:induction false} EnrichCallsCounts(api: Upstream, results: seq<Summary>)
    ensures var calls := EnrichCalls(api, results);
      && Count(calls, ListingFetch) == 0
      && Count(calls, KeywordLookup) == |PresentIds(results)|
      && Count(calls, CreditLookup) == |PresentIds(results)|
      && Count(calls, Upsert) == 0
      && Count(calls, Pause) == |results|
  {
    if results != [] {
      var init := results[..|results| - 1];
      var movie := results[|results| - 1];
      EnrichCallsCounts(api, init);
      LookupCallsCounts(movie);
      CountAppend(EnrichCalls(api, init), LookupCalls(movie));
      CountAppend(EnrichCalls(api, init) + LookupCalls(movie), [Sleep(MovieDelayMillis)]);
    }
  }

  /**
   * A page with results costs one keyword and one credit lookup per result with a truthy id,
   * one pause per result plus one for the page, no listing fetch, and exactly one upsert when
   * some result survived enrichment (none otherwise).
   */
  lemma {:induction false} PageCallCounts(api: Upstream, results: seq<Summary>)
    ensures var calls := PageCalls(api, results);
      && Count(calls, ListingFetch) == 0
      && Count(calls, KeywordLookup) == |PresentIds(results)|
      && Count(calls, CreditLookup) == |PresentIds(results)|
      && Count(calls, Upsert) == (if Batch(api, results) != [] then 1 else 0)
      && Count(calls, Pause) == |results| + 1
  {
    var batch := Batch(api, results);
    var upsert := if batch != [] then [UpsertMovies(batch)] else [];
    EnrichCallsCounts(api, results);
    CountAppend(EnrichCalls(api, results), upsert);
    CountAppend(EnrichCalls(api, results) + upsert, [Sleep(PageDelayMillis)]);
  }
}
