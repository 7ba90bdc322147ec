/**
  Shapes shared by the two catalog (TMDB) clients, src/lib/movie.ts and
  src/lib/tvshow.ts: one raw result item, the raw and the converted page,
  and a request reduced to its endpoint and its query parameters.
 */
module Catalog {
  import opened Js
  import opened MediaTypes

  /** The categories that have an endpoint of their own; anything else goes to discovery. */
  predicate IsNamedCategory(parameter: string) {
    parameter == "popular" || parameter == "top_rated" || parameter == "now_playing"
  }

  /**
    One result of the catalog service. A movie carries `title`/`release_date`,
    a TV show `name`/`first_air_date`; `posterPath` is None when the service
    sends JSON null.
   */
  datatype TmdbItem = TmdbItem(
    id: int,
    title: Option<string>,
    name: Option<string>,
    posterPath: Option<string>,
    overview: Option<string>,
    releaseDate: Option<string>,
    firstAirDate: Option<string>,
    voteAverage: Option<real>)

  datatype RawPage = RawPage(page: int, results: seq<TmdbItem>, totalPages: int, totalResults: int)

  datatype MediaPage = MediaPage(page: int, results: seq<Media>, totalPages: int, totalResults: int)

  /** A GET request: the path below the catalog API's base URL and its query parameters by name. */
  datatype Request = Request(endpoint: string, params: map<string, string>)

  /** `${x}` inside a template string, for a value that may be JSON null. */
  function Interpolate(o: Option<string>): (r: string)
    ensures o.Some? ==> r == o.value
    ensures o.None? ==> r == "null"
  {
    if o.Some? then o.value else "null"
  }

  /** `{...data, results: data.results.map(convert)}` */
  function ConvertPage(raw: RawPage, convert: TmdbItem -> Media): (r: MediaPage)
    ensures r.page == raw.page && r.totalPages == raw.totalPages && r.totalResults == raw.totalResults
    ensures |r.results| == |raw.results|
    ensures forall i :: 0 <= i < |raw.results| ==> r.results[i] == convert(raw.results[i])
  {
    MediaPage(raw.page, MapSeq(raw.results, convert), raw.totalPages, raw.totalResults)
  }
}
