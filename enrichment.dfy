/**
 * `DataPipeline._enrich_movie` as a pure function of the movie summary and the two detail
 * lookup responses: `None` for a lookup that failed (or never happened), otherwise the
 * decoded response body.
 */
module Enrichment {
  import opened Wrappers
  import opened Movies
  import opened CastOrder

  /** Number of cast names kept on a record. */
  const TopCastSize := 3

  function Min(a: int, b: int): int {
    if a <= b then a else b
  }

  /** `[x['name'] for x in s]`: the name of each element, in order. */
  function Names<T>(s: seq<T>, name: T -> string): (r: seq<string>)
    ensures |r| == |s|
    ensures forall i :: 0 <= i < |r| ==> r[i] == name(s[i])
  {
    if s == [] then [] else [name(s[0])] + Names(s[1..], name)
  }

  function KeywordName(k: Keyword): string {
    k.name
  }

  function MemberName(m: CastMember): string {
    m.name
  }

  /** The keyword list stored on a record; empty when the lookup failed or listed nothing. */
  function KeywordsOf(resp: Option<KeywordsResponse>): (r: seq<string>)
    ensures resp.None? || resp.value.keywords.None? ==> r == []
    ensures resp.Some? && resp.value.keywords.Some? ==>
      var ks := resp.value.keywords.value;
      |r| == |ks| && forall i :: 0 <= i < |r| ==> r[i] == ks[i].name
  {
    if resp.Some? && resp.value.keywords.Some? && resp.value.keywords.value != [] then
      Names(resp.value.keywords.value, KeywordName)
    else
      []
  }

  /**
   * The names of the first three members of the cast once stably sorted by billing order;
   * empty when the lookup failed or the cast is absent or empty.
   */
  function TopCast(resp: Option<CreditsResponse>): (r: seq<string>)
    ensures |r| <= TopCastSize
    ensures resp.None? || resp.value.cast.None? ==> r == []
    ensures resp.Some? && resp.value.cast.Some? ==>
      var cast := resp.value.cast.value;
      |r| == Min(TopCastSize, |cast|) &&
      forall i :: 0 <= i < |r| ==> r[i] == SortByOrder(cast)[i].name
  {
    if resp.Some? && resp.value.cast.Some? && resp.value.cast.value != [] then
      var sorted := SortByOrder(resp.value.cast.value);
      Names(sorted[..Min(TopCastSize, |sorted|)], MemberName)
    else
      []
  }

  /**
   * The processed record for `movie`, given what the keyword and credit lookups returned:
   * `None` when the id or the title is falsy.
   */
  function EnrichFrom(movie: Summary, keywords: Option<KeywordsResponse>, credits: Option<CreditsResponse>): (r: Option<Movie>)
    ensures r.Some? <==> IdPresent(movie.id) && TitlePresent(movie.title)
    ensures r.Some? ==>
      && r.value.id == movie.id.value
      && r.value.title == movie.title
      && r.value.overview == movie.overview
      && r.value.releaseDate == movie.releaseDate
      && r.value.popularity == movie.popularity
      && r.value.voteAverage == movie.voteAverage
      && r.value.voteCount == movie.voteCount
      && r.value.posterPath == movie.posterPath
      && r.value.genreIds == movie.genreIds
      && r.value.keywords == KeywordsOf(keywords)
      && r.value.topCast == TopCast(credits)
  {
    if !IdPresent(movie.id) then
      None
    else
      var processed := Movie(
        movie.id.value, movie.title, movie.overview, movie.releaseDate,
        movie.popularity, movie.voteAverage, movie.voteCount, movie.posterPath,
        movie.genreIds, KeywordsOf(keywords), TopCast(credits));
      if TitlePresent(processed.title) then Some(processed) else None
  }

  /** What the lookups returned never decides whether a record is kept or dropped. */
  lemma KeptWhateverTheLookups(movie: Summary,
                               k1: Option<KeywordsResponse>, c1: Option<CreditsResponse>,
                               k2: Option<KeywordsResponse>, c2: Option<CreditsResponse>)
    ensures EnrichFrom(movie, k1, c1).Some? == EnrichFrom(movie, k2, c2).Some?
  {
  }

  /** A failed lookup leaves a valid record valid, with empty keyword and cast lists. */
  lemma FailedLookupsDegradeToEmpty(movie: Summary)
    requires IdPresent(movie.id) && TitlePresent(movie.title)
    ensures EnrichFrom(movie, None, None).Some?
    ensures EnrichFrom(movie, None, None).value.keywords == []
    ensures EnrichFrom(movie, None, None).value.topCast == []
  {
  }

  /** For a cast already in billing order, the top cast is the names of its first three members. */
  lemma TopCastOfBilledCast(cast: seq<CastMember>)
    requires SortedByKey(cast)
    ensures TopCast(Some(CreditsResponse(Some(cast)))) == Names(cast[..Min(TopCastSize, |cast|)], MemberName)
  {
    SortedCastUnchanged(cast);
  }

  /**
   * The kept cast names belong to the best-billed members: the sorted cast is a permutation
   * of the input, and every member it places after the kept ones has a key at least as large.
   */
  lemma TopCastIsBestBilled(cast: seq<CastMember>)
    ensures var r := TopCast(Some(CreditsResponse(Some(cast))));
      var s := SortByOrder(cast);
      && multiset(s) == multiset(cast)
      && |r| == Min(TopCastSize, |cast|)
      && (forall i :: 0 <= i < |r| ==> r[i] == s[i].name)
      && (forall i, j :: 0 <= i < |r| <= j < |s| ==> Key(s[i]) <= Key(s[j]))
  {
  }
}
