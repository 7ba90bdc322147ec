/**
  The catalog TV client, src/lib/tvshow.ts: the converter from a catalog
  item to `Media`, the API-key guard, the choice between a named list and
  network discovery, and the mapping of a response into a page of `Media`.
 */
module TvShow {
  import opened Js
  import opened MediaTypes
  import opened Catalog
  import Movie

  const PosterPrefix := "https://media.themoviedb.org/t/p/w220_and_h330_face"
  const MissingKeyMessage := "TMDB API key 未配置"
  const FetchFailedPrefix := "获取电视剧列表失败: "
  const SearchFailedPrefix := "搜索电视剧失败: "

  /**
    Normalises one catalog item as a TV show: the title is always the item's
    `name`, and the release date has no '' default, so it may stay absent.
   */
  function ConvertToMediaFormat(m: TmdbItem): (r: Media)
    ensures r.id == Some(m.id) && r.tmdbId == r.id
    ensures r.title == m.name
    ensures StartsWith(r.posterPath, PosterPrefix)
    ensures r.posterPath[|PosterPrefix|..] == Interpolate(m.posterPath)
    ensures r.overview == m.overview && r.voteAverage == m.voteAverage
    ensures TruthyString(m.releaseDate) ==> r.releaseDate == m.releaseDate
    ensures !TruthyString(m.releaseDate) ==> r.releaseDate == m.firstAirDate
    ensures r.tvdbId == Undefined && r.imdbId == Some("")
    ensures !r.inRadarr && r.mediatype == MediaTVShow
  {
    Media(
      id := Some(m.id),
      title := m.name,
      posterPath := PosterPrefix + Interpolate(m.posterPath),
      overview := m.overview,
      releaseDate := OrString(m.releaseDate, m.firstAirDate),
      voteAverage := m.voteAverage,
      tmdbId := Some(m.id),
      tvdbId := Undefined,
      imdbId := Some(""),
      inRadarr := false,
      mediatype := MediaTVShow)
  }

  /**
    The request `fetchTVShows(page, parameter)` sends; a missing key (`apiKey`
    is "" when unset) fails before any request is built.
   */
  function FetchTVShowsRequest(apiKey: string, page: nat, parameter: string): (r: Result<Request>)
    ensures apiKey == "" <==> r.Err?
    ensures r.Err? ==> r.message == MissingKeyMessage
    ensures r.Ok? && IsNamedCategory(parameter) ==>
      r.value.endpoint == "tv/" + parameter && r.value.params.Keys == {"api_key", "language", "page"}
    ensures r.Ok? && !IsNamedCategory(parameter) ==>
      r.value.endpoint == "discover/tv" &&
      r.value.params.Keys == {"region", "with_networks", "language", "api_key", "page"} &&
      r.value.params["with_networks"] == parameter && r.value.params["region"] == "US"
    ensures r.Ok? ==> "page" in r.value.params && r.value.params["page"] == NatToString(page)
    ensures r.Ok? ==> "api_key" in r.value.params && r.value.params["api_key"] == apiKey
    ensures r.Ok? ==> "language" in r.value.params && r.value.params["language"] == "zh-CN"
  {
    if apiKey == "" then Err(MissingKeyMessage)
    else if IsNamedCategory(parameter) then
      Ok(Request("tv/" + parameter,
        map["api_key" := apiKey, "language" := "zh-CN", "page" := NatToString(page)]))
    else
      Ok(Request("discover/tv",
        map["region" := "US", "with_networks" := parameter, "language" := "zh-CN",
            "api_key" := apiKey, "page" := NatToString(page)]))
  }

  /** The request `searchTVShows(query, page)` sends; `query` stands for its URI-encoded form. */
  function SearchTVShowsRequest(apiKey: string, query: string, page: nat): (r: Result<Request>)
    ensures apiKey == "" <==> r.Err?
    ensures r.Err? ==> r.message == MissingKeyMessage
    ensures r.Ok? ==> r.value.endpoint == "search/tv" && r.value.params.Keys == {"api_key", "language", "query", "page"}
    ensures r.Ok? ==> r.value.params["query"] == query && r.value.params["page"] == NatToString(page)
    ensures r.Ok? ==> r.value.params["api_key"] == apiKey && r.value.params["language"] == "zh-CN"
  {
    if apiKey == "" then Err(MissingKeyMessage)
    else
      Ok(Request("search/tv",
        map["api_key" := apiKey, "language" := "zh-CN", "query" := query, "page" := NatToString(page)]))
  }

  /** What `fetchTVShows` returns or throws, given the response its request would get. */
  function FetchTVShows(apiKey: string, response: Http<RawPage>): (r: Result<MediaPage>)
    ensures apiKey == "" ==> r == Err(MissingKeyMessage)
    ensures apiKey != "" && !response.ok ==> r == Err(FetchFailedPrefix + response.statusText)
    ensures apiKey != "" && response.ok ==> r == Ok(ConvertPage(response.body, ConvertToMediaFormat))
  {
    if apiKey == "" then Err(MissingKeyMessage)
    else if !response.ok then Err(FetchFailedPrefix + response.statusText)
    else Ok(ConvertPage(response.body, ConvertToMediaFormat))
  }

  /** What `searchTVShows` returns or throws, given the response its request would get. */
  function SearchTVShows(apiKey: string, response: Http<RawPage>): (r: Result<MediaPage>)
    ensures apiKey == "" ==> r == Err(MissingKeyMessage)
    ensures apiKey != "" && !response.ok ==> r == Err(SearchFailedPrefix + response.statusText)
    ensures apiKey != "" && response.ok ==> r == Ok(ConvertPage(response.body, ConvertToMediaFormat))
  {
    if apiKey == "" then Err(MissingKeyMessage)
    else if !response.ok then Err(SearchFailedPrefix + response.statusText)
    else Ok(ConvertPage(response.body, ConvertToMediaFormat))
  }

  /** The "on the air" tab is not a named category: it is sent to discovery as a network code. */
  lemma OnTheAirIsDiscovered(apiKey: string, page: nat)
    requires apiKey != ""
    ensures FetchTVShowsRequest(apiKey, page, "on_the_air").Ok?
    ensures FetchTVShowsRequest(apiKey, page, "on_the_air").value.endpoint == "discover/tv"
    ensures FetchTVShowsRequest(apiKey, page, "on_the_air").value.params["with_networks"] == "on_the_air"
  {
  }

  /**
    The two catalog converters agree on identity, differ in the tag, and on a
    TV-shaped item (no `title`) agree on the title too.
   */
  lemma ConvertersCompared(m: TmdbItem)
    ensures Movie.ConvertToMediaFormat(m).id == ConvertToMediaFormat(m).id
    ensures Movie.ConvertToMediaFormat(m).mediatype != ConvertToMediaFormat(m).mediatype
    ensures !TruthyString(m.title) ==> Movie.ConvertToMediaFormat(m).title == ConvertToMediaFormat(m).title
    ensures !TruthyString(m.releaseDate) && m.firstAirDate.None? ==>
      Movie.ConvertToMediaFormat(m).releaseDate == Some("") && ConvertToMediaFormat(m).releaseDate.None?
  {
  }
}
