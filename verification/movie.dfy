/**
  The catalog movie client, src/lib/movie.ts: the converter from a catalog
  item to `Media`, the choice of endpoint and parameters for browsing and
  searching, and the mapping of a response into a page of `Media`.
  The network call itself is left out: a request is a value, and the
  response is a parameter.
 */
module Movie {
  import opened Js
  import opened MediaTypes
  import opened Catalog

  const PosterPrefix := "https://image.tmdb.org/t/p/w500"
  const WatchProviders := "2|8|15|384|12|49|55|531|337|453|2739|213|1024|4353"
  const FetchFailedMessage := "获取电影数据失败"
  const SearchFailedMessage := "搜索电影失败"

  /**
    Normalises one catalog item. Whatever its shape (movie or TV show), the
    record is tagged as a movie, is not in the library, and its release date is
    always a string.
   */
  function ConvertToMediaFormat(m: TmdbItem): (r: Media)
    ensures r.id == Some(m.id) && r.tmdbId == r.id
    ensures TruthyString(m.title) ==> r.title == m.title
    ensures !TruthyString(m.title) ==> r.title == m.name
    ensures StartsWith(r.posterPath, PosterPrefix)
    ensures r.posterPath[|PosterPrefix|..] == Interpolate(m.posterPath)
    ensures r.overview == m.overview && r.voteAverage == m.voteAverage
    ensures r.releaseDate.Some?
    ensures TruthyString(m.releaseDate) ==> r.releaseDate == m.releaseDate
    ensures !TruthyString(m.releaseDate) && TruthyString(m.firstAirDate) ==> r.releaseDate == m.firstAirDate
    ensures !TruthyString(m.releaseDate) && !TruthyString(m.firstAirDate) ==> r.releaseDate == Some("")
    ensures r.tvdbId == Num(0) && r.imdbId.None?
    ensures !r.inRadarr && r.mediatype == MediaMovie
  {
    Media(
      id := Some(m.id),
      title := OrString(m.title, m.name),
      posterPath := PosterPrefix + Interpolate(m.posterPath),
      overview := m.overview,
      releaseDate := Some(StringOr(OrString(m.releaseDate, m.firstAirDate), "")),
      voteAverage := m.voteAverage,
      tmdbId := Some(m.id),
      tvdbId := Num(0),
      imdbId := None,
      inRadarr := false,
      mediatype := MediaMovie)
  }

  /** The browse request of `fetchMovies(page, parameter)`; `apiKey` is "" when unset. */
  function FetchMoviesRequest(page: nat, parameter: string, apiKey: string): (r: Request)
    ensures IsNamedCategory(parameter) ==> r.endpoint == "movie/" + parameter
    ensures IsNamedCategory(parameter) ==> r.params.Keys == {"language", "api_key", "page"}
    ensures !IsNamedCategory(parameter) ==> r.endpoint == "discover/movie"
    ensures !IsNamedCategory(parameter) ==>
      r.params.Keys == {"watch_region", "with_watch_providers", "language", "api_key", "page"} &&
      r.params["with_watch_providers"] == WatchProviders && r.params["watch_region"] == "US"
    ensures "page" in r.params && r.params["page"] == NatToString(page)
    ensures "api_key" in r.params && r.params["api_key"] == apiKey
    ensures "language" in r.params && r.params["language"] == "zh-CN"
  {
    if IsNamedCategory(parameter) then
      Request("movie/" + parameter,
        map["language" := "zh-CN", "api_key" := apiKey, "page" := NatToString(page)])
    else
      Request("discover/movie",
        map["watch_region" := "US", "with_watch_providers" := WatchProviders,
            "language" := "zh-CN", "api_key" := apiKey, "page" := NatToString(page)])
  }

  /** The request of `searchMovies(query, page)`; `query` stands for its URI-encoded form. */
  function SearchMoviesRequest(query: string, page: nat, apiKey: string): (r: Request)
    ensures r.endpoint == "search/movie"
    ensures r.params.Keys == {"language", "api_key", "query", "page"}
    ensures r.params["query"] == query && r.params["page"] == NatToString(page)
    ensures r.params["api_key"] == apiKey && r.params["language"] == "zh-CN"
  {
    Request("search/movie",
      map["language" := "zh-CN", "api_key" := apiKey, "query" := query, "page" := NatToString(page)])
  }

  /** A response mapped into the page `fetchMovies` returns, or the error it throws. */
  function FetchMovies(response: Http<RawPage>): (r: Result<MediaPage>)
    ensures !response.ok <==> r == Err(FetchFailedMessage)
    ensures response.ok ==> r.Ok? && r.value == ConvertPage(response.body, ConvertToMediaFormat)
  {
    if !response.ok then Err(FetchFailedMessage)
    else Ok(ConvertPage(response.body, ConvertToMediaFormat))
  }

  /** A response mapped into the page `searchMovies` returns, or the error it throws. */
  function SearchMovies(response: Http<RawPage>): (r: Result<MediaPage>)
    ensures !response.ok <==> r == Err(SearchFailedMessage)
    ensures response.ok ==> r.Ok? && r.value == ConvertPage(response.body, ConvertToMediaFormat)
  {
    if !response.ok then Err(SearchFailedMessage)
    else Ok(ConvertPage(response.body, ConvertToMediaFormat))
  }
}
