/**
 * The data the pipeline moves: movie summaries as the listing endpoints return them,
 * the two detail-lookup responses, and the enriched record handed to the store.
 *
 * Every dictionary field read with `d.get(key)` is an `Option`: `None` when the key is
 * absent. Numeric fields that are only copied (`popularity`, `vote_average`) are kept
 * as their JSON literal text and never interpreted.
 */
module Movies {
  import opened Wrappers

  /** A JSON number carried through unchanged (its literal text). */
  datatype Number = Number(literal: string)

  /** One entry of a listing page's `results`. */
  datatype Summary = Summary(
    id: Option<int>,
    title: Option<string>,
    overview: Option<string>,
    releaseDate: Option<string>,
    popularity: Option<Number>,
    voteAverage: Option<Number>,
    voteCount: Option<int>,
    posterPath: Option<string>,
    genreIds: Option<seq<int>>)

  /** One keyword object; only its `name` is read. */
  datatype Keyword = Keyword(name: string)

  /** Body of the keywords lookup: its `keywords` list, when present. */
  datatype KeywordsResponse = KeywordsResponse(keywords: Option<seq<Keyword>>)

  /** One cast member; `order` is the billing order, absent for some members. */
  datatype CastMember = CastMember(name: string, order: Option<int>)

  /** Body of the credits lookup: its `cast` list, when present. */
  datatype CreditsResponse = CreditsResponse(cast: Option<seq<CastMember>>)

  /** The processed movie record upserted into the `movies` table. */
  datatype Movie = Movie(
    id: int,
    title: Option<string>,
    overview: Option<string>,
    releaseDate: Option<string>,
    popularity: Option<Number>,
    voteAverage: Option<Number>,
    voteCount: Option<int>,
    posterPath: Option<string>,
    genreIds: Option<seq<int>>,
    keywords: seq<string>,
    topCast: seq<string>)

  /** Python truthiness of `movie.get('id')`: absent and `0` are falsy. */
  predicate IdPresent(id: Option<int>) {
    id.Some? && id.value != 0
  }

  /** Python truthiness of `movie.get('title')`: absent and `''` are falsy. */
  predicate TitlePresent(title: Option<string>) {
    title.Some? && title.value != ""
  }
}
