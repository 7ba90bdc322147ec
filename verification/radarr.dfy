/**
  The movie-library client, src/lib/radarr.ts: the configuration guard, the
  converter from a library movie to `Media`, the list and add calls with
  their responses as parameters, the presence-id projection, and the fixed
  defaults of an add request.
 */
module Radarr {
  import opened Js
  import opened MediaTypes

  /** Base URL and API key; each is "" when its environment variable is unset. */
  datatype Config = Config(baseUrl: string, apiKey: string)

  const ConfigErrorMessage := "Radarr 配置不完整，请检查环境变量"
  const ListFailedPrefix := "Radarr API 请求失败: "
  const AddFailedPrefix := "添加电影失败: "
  /** What reading `url` of the `undefined` that `find` returns throws. */
  const NoPosterMessage := "Cannot read properties of undefined (reading 'url')"

  datatype Image = Image(coverType: string, url: string)

  /** A movie as the library lists it; `ratings` maps a source name to its `value`. */
  datatype RadarrMovie = RadarrMovie(
    title: Option<string>,
    images: seq<Image>,
    overview: Option<string>,
    releaseDate: Option<string>,
    ratings: map<string, Option<real>>,
    tmdbId: Option<int>,
    tvdbId: Value)

  datatype AddMovieRequest = AddMovieRequest(
    title: Option<string>,
    qualityProfileId: int,
    rootFolderPath: string,
    tmdbId: Option<int>,
    monitored: bool,
    searchForMovie: bool)

  /** The JSON body of an add response: the created movie, or an error with a `message`. */
  datatype AddMovieBody = AddMovieBody(id: Option<int>, title: Option<string>, tmdbId: Option<int>, message: Option<string>)

  predicate ConfigComplete(config: Config) {
    config.baseUrl != "" && config.apiKey != ""
  }

  /** `images.find(img => img.coverType === 'poster')`, as the index of the match. */
  function FindPoster(images: seq<Image>): (r: Option<nat>)
    ensures r.Some? ==> r.value < |images| && images[r.value].coverType == "poster"
    ensures r.Some? ==> forall j :: 0 <= j < r.value ==> images[j].coverType != "poster"
    ensures r.None? <==> forall j :: 0 <= j < |images| ==> images[j].coverType != "poster"
  {
    if images == [] then None
    else if images[0].coverType == "poster" then Some(0)
    else
      match FindPoster(images[1..])
      case None => None
      case Some(k) => Some(k + 1)
  }

  /** `ratings.hasOwnProperty('tmdb') ? ratings.tmdb.value : 0`, then `|| 0`. */
  function TmdbRating(ratings: map<string, Option<real>>): (v: real)
    ensures "tmdb" in ratings && TruthyReal(ratings["tmdb"]) ==> v == ratings["tmdb"].value
    ensures !("tmdb" in ratings && TruthyReal(ratings["tmdb"])) ==> v == 0.0
  {
    var value := if "tmdb" in ratings then ratings["tmdb"] else Some(0.0);
    if TruthyReal(value) then value.value else 0.0
  }

  /**
    Converts a library movie; it fails exactly when the movie has no poster image.
    `id` is the raw `tmdbId`, while `tmdbId` itself defaults to 0.
   */
  function ConvertToMovieFormat(m: RadarrMovie, baseUrl: string): (r: Result<Media>)
    ensures r.Err? <==> FindPoster(m.images).None?
    ensures r.Err? ==> r.message == NoPosterMessage
    ensures r.Ok? ==> r.value.posterPath == baseUrl + m.images[FindPoster(m.images).value].url
    ensures r.Ok? ==> r.value.id == m.tmdbId
    ensures r.Ok? ==> r.value.tmdbId == Some(if TruthyInt(m.tmdbId) then m.tmdbId.value else 0)
    ensures r.Ok? ==> r.value.tvdbId == if Truthy(m.tvdbId) then m.tvdbId else Num(0)
    ensures r.Ok? ==> r.value.title == m.title && r.value.overview == m.overview
    ensures r.Ok? ==> r.value.releaseDate == Some(StringOr(m.releaseDate, ""))
    ensures r.Ok? ==> r.value.voteAverage == Some(TmdbRating(m.ratings))
    ensures r.Ok? ==> r.value.imdbId.None? && r.value.inRadarr && r.value.mediatype == MediaMovie
  {
    match FindPoster(m.images)
    case None => Err(NoPosterMessage)
    case Some(k) =>
      Ok(Media(
        id := m.tmdbId,
        title := m.title,
        posterPath := baseUrl + m.images[k].url,
        overview := m.overview,
        releaseDate := Some(StringOr(m.releaseDate, "")),
        voteAverage := Some(TmdbRating(m.ratings)),
        tmdbId := Some(if TruthyInt(m.tmdbId) then m.tmdbId.value else 0),
        tvdbId := if Truthy(m.tvdbId) then m.tvdbId else Num(0),
        imdbId := None,
        inRadarr := true,
        mediatype := MediaMovie))
  }

  /** `data.map(convertToMovieFormat)`: every movie converted in order, or the first failure. */
  function ConvertAll(items: seq<RadarrMovie>, baseUrl: string): (r: Result<seq<Media>>)
    ensures r.Ok? <==> forall i :: 0 <= i < |items| ==> ConvertToMovieFormat(items[i], baseUrl).Ok?
    ensures r.Ok? ==> |r.value| == |items|
    ensures r.Ok? ==> forall i :: 0 <= i < |items| ==> r.value[i] == ConvertToMovieFormat(items[i], baseUrl).value
    ensures r.Err? ==> r.message == NoPosterMessage
  {
    if items == [] then Ok([])
    else
      match ConvertToMovieFormat(items[0], baseUrl)
      case Err(e) => Err(e)
      case Ok(head) =>
        match ConvertAll(items[1..], baseUrl)
        case Err(e) => Err(e)
        case Ok(tail) =>
          assert forall i :: 1 <= i < |items| ==> items[i] == items[1..][i - 1];
          Ok([head] + tail)
  }

  /** What `fetchRadarrMovies` returns or throws, given the response of its list request. */
  function FetchRadarrMovies(config: Config, response: Http<ListBody<RadarrMovie>>): (r: Result<seq<Media>>)
    ensures !ConfigComplete(config) ==> r == Err(ConfigErrorMessage)
    ensures ConfigComplete(config) && !response.ok ==> r == Err(ListFailedPrefix + response.statusText)
    ensures ConfigComplete(config) && response.ok && response.body.NotAnArray? ==> r == Ok([])
    ensures ConfigComplete(config) && response.ok && response.body.ArrayBody? ==>
      r == ConvertAll(response.body.items, config.baseUrl)
  {
    if !ConfigComplete(config) then Err(ConfigErrorMessage)
    else if !response.ok then Err(ListFailedPrefix + response.statusText)
    else if response.body.NotAnArray? then Ok([])
    else ConvertAll(response.body.items, config.baseUrl)
  }

  /** `getRadarrTmdbIds`: the `tmdbId` of every listed movie, in order. */
  function GetRadarrTmdbIds(config: Config, response: Http<ListBody<RadarrMovie>>): (r: Result<seq<Option<int>>>)
    ensures r.Ok? <==> FetchRadarrMovies(config, response).Ok?
    ensures r.Err? ==> r.message == FetchRadarrMovies(config, response).message
    ensures r.Ok? ==> |r.value| == |FetchRadarrMovies(config, response).value|
    ensures r.Ok? ==> forall i :: 0 <= i < |r.value| ==>
      r.value[i] == FetchRadarrMovies(config, response).value[i].tmdbId
  {
    match FetchRadarrMovies(config, response)
    case Err(e) => Err(e)
    case Ok(movies) => Ok(MapSeq(movies, (m: Media) => m.tmdbId))
  }

  /** Every id the library reports is a number: a missing `tmdbId` shows up as 0. */
  lemma RadarrIdsArePresent(config: Config, response: Http<ListBody<RadarrMovie>>, i: nat)
    requires GetRadarrTmdbIds(config, response).Ok? && i < |GetRadarrTmdbIds(config, response).value|
    ensures GetRadarrTmdbIds(config, response).value[i].Some?
    ensures response.ok && response.body.ArrayBody? && i < |response.body.items| && !TruthyInt(response.body.items[i].tmdbId) ==>
      GetRadarrTmdbIds(config, response).value[i] == Some(0)
  {
  }

  /**
    What `addMovieToRadarr` returns or throws, given the response of its POST.
    The request body it sends decides nothing here; the service's answer to it
    arrives as `response`.
   */
  function AddMovieToRadarr(config: Config, response: Http<AddMovieBody>): (r: Result<AddMovieBody>)
    ensures !ConfigComplete(config) ==> r == Err(ConfigErrorMessage)
    ensures ConfigComplete(config) && !response.ok ==>
      r == Err(AddFailedPrefix + StringOr(response.body.message, response.statusText))
    ensures ConfigComplete(config) && response.ok ==> r == Ok(response.body)
  {
    if !ConfigComplete(config) then Err(ConfigErrorMessage)
    else if !response.ok then Err(AddFailedPrefix + StringOr(response.body.message, response.statusText))
    else Ok(response.body)
  }

  /** The add request for a movie: its id and title, with fixed defaults for everything else. */
  function GetDefaultAddMovieParams(tmdbId: Option<int>, title: Option<string>): (r: AddMovieRequest)
    ensures r.tmdbId == tmdbId && r.title == title
    ensures r.qualityProfileId == 1 && r.rootFolderPath == "/media"
    ensures r.monitored && r.searchForMovie
  {
    AddMovieRequest(title, 1, "/media", tmdbId, true, true)
  }
}
