/**
  The show-library client, src/lib/sonarr.ts: the configuration guard, the
  converter from a library series to `Media`, the list, lookup and add calls
  with their responses as parameters, the presence-id projection, and the
  fixed defaults of an add request.
 */
module Sonarr {
  import opened Js
  import opened MediaTypes

  /** Base URL and API key; each is "" when its environment variable is unset. */
  datatype Config = Config(baseUrl: string, apiKey: string)

  const ConfigErrorMessage := "Sonarr 配置不完整，请检查环境变量"
  const ListFailedPrefix := "获取剧集列表失败: "
  const LookupFailedPrefix := "获取剧集信息失败: "
  const AddFailedPrefix := "添加剧集失败: "
  /** What calling `map` on a JSON body that is not an array throws. */
  const NotAnArrayMessage := "data.map is not a function"
  const FixedPosterUrl := "https://media.themoviedb.org/t/p/w300_and_h450_bestv2/qujVFLAlBnPU9mZElV4NZgL8iXT.jpg"

  datatype Rating = Rating(value: Option<real>)

  /** A series as the library lists or looks it up; `id` is the library's own id. */
  datatype SonarrSeries = SonarrSeries(
    id: Option<int>,
    title: Option<string>,
    overview: Option<string>,
    firstAired: Option<string>,
    ratings: Option<Rating>,
    tmdbId: Option<int>,
    tvdbId: Value)

  datatype AddSeriesRequest = AddSeriesRequest(
    title: Option<string>,
    qualityProfileId: int,
    rootFolderPath: string,
    tmdbId: Option<int>,
    tvdbId: Value,
    monitored: bool,
    searchForMissingEpisodes: bool)

  /**
    The JSON body of an add response. The code reads a field spelled `TmdbId`;
    the lower-case `tmdbId` is carried to show that it is not read.
   */
  datatype SeriesBody = SeriesBody(id: Option<int>, title: Option<string>, tmdbId: Option<int>, TmdbId: Option<int>)

  datatype AddSeriesResponse = AddSeriesResponse(id: Option<int>, title: Option<string>, TmdbId: Option<int>)

  predicate ConfigComplete(config: Config) {
    config.baseUrl != "" && config.apiKey != ""
  }

  /** `ratings?.value || 0` */
  function RatingValue(ratings: Option<Rating>): (v: real)
    ensures ratings.Some? && TruthyReal(ratings.value.value) ==> v == ratings.value.value.value
    ensures !(ratings.Some? && TruthyReal(ratings.value.value)) ==> v == 0.0
  {
    if ratings.Some? && TruthyReal(ratings.value.value) then ratings.value.value.value else 0.0
  }

  /**
    Converts a library series. The poster is one fixed URL whatever the input,
    the record is a TV show that is not marked as present, and a falsy
    `tvdbId` becomes 0.
   */
  function ConvertToMediaFormat(s: SonarrSeries): (r: Media)
    ensures r.id == s.id && r.tmdbId == s.tmdbId
    ensures r.title == s.title && r.overview == s.overview
    ensures r.posterPath == FixedPosterUrl
    ensures r.releaseDate == Some(StringOr(s.firstAired, ""))
    ensures r.voteAverage == Some(RatingValue(s.ratings))
    ensures Truthy(s.tvdbId) ==> r.tvdbId == s.tvdbId
    ensures !Truthy(s.tvdbId) ==> r.tvdbId == Num(0)
    ensures r.imdbId.None? && !r.inRadarr && r.mediatype == MediaTVShow
  {
    Media(
      id := s.id,
      title := s.title,
      posterPath := FixedPosterUrl,
      overview := s.overview,
      releaseDate := Some(StringOr(s.firstAired, "")),
      voteAverage := Some(RatingValue(s.ratings)),
      tmdbId := s.tmdbId,
      tvdbId := if Truthy(s.tvdbId) then s.tvdbId else Num(0),
      imdbId := None,
      inRadarr := false,
      mediatype := MediaTVShow)
  }

  /** `{...series, tvdbId: series.tvdbId || ''}`: only a falsy `tvdbId` changes, to ''. */
  function WithTvdbDefault(s: SonarrSeries): (r: SonarrSeries)
    ensures Truthy(s.tvdbId) ==> r == s
    ensures !Truthy(s.tvdbId) ==> r.tvdbId == Str("") && r.(tvdbId := s.tvdbId) == s
  {
    s.(tvdbId := if Truthy(s.tvdbId) then s.tvdbId else Str(""))
  }

  /** Pre-defaulting to '' is invisible after conversion: '' || 0 is 0 as well. */
  lemma WithTvdbDefaultInvisible(s: SonarrSeries)
    ensures ConvertToMediaFormat(WithTvdbDefault(s)) == ConvertToMediaFormat(s)
  {
  }

  /**
    What `fetchSonarrSeries` returns or throws, given the response of its list
    request. Unlike the movie-library client there is no array guard: a body
    that is not an array makes `map` throw.
   */
  function FetchSonarrSeries(config: Config, response: Http<ListBody<SonarrSeries>>): (r: Result<seq<Media>>)
    ensures !ConfigComplete(config) ==> r == Err(ConfigErrorMessage)
    ensures ConfigComplete(config) && !response.ok ==> r == Err(ListFailedPrefix + response.statusText)
    ensures ConfigComplete(config) && response.ok && response.body.NotAnArray? ==> r == Err(NotAnArrayMessage)
    ensures ConfigComplete(config) && response.ok && response.body.ArrayBody? ==>
      r.Ok? && |r.value| == |response.body.items|
    ensures ConfigComplete(config) && response.ok && response.body.ArrayBody? ==>
      forall i :: 0 <= i < |response.body.items| ==> r.value[i] == ConvertToMediaFormat(response.body.items[i])
  {
    if !ConfigComplete(config) then Err(ConfigErrorMessage)
    else if !response.ok then Err(ListFailedPrefix + response.statusText)
    else if response.body.NotAnArray? then Err(NotAnArrayMessage)
    else
      var series := response.body.items;
      var prepared := MapSeq(series, WithTvdbDefault);
      var r := MapSeq(prepared, ConvertToMediaFormat);
      assert forall i :: 0 <= i < |series| ==> r[i] == ConvertToMediaFormat(series[i]) by {
        forall i | 0 <= i < |series| ensures r[i] == ConvertToMediaFormat(series[i]) {
          WithTvdbDefaultInvisible(series[i]);
        }
      }
      Ok(r)
  }

  /**
    What `getSeriesByTmdbId` returns or throws: null (None) for an empty lookup,
    otherwise every match converted, in order. A body that is not an array has
    no `length` of 0, so it reaches `map` and throws.
   */
  function GetSeriesByTmdbId(config: Config, response: Http<ListBody<SonarrSeries>>): (r: Result<Option<seq<Media>>>)
    ensures !ConfigComplete(config) ==> r == Err(ConfigErrorMessage)
    ensures ConfigComplete(config) && !response.ok ==> r == Err(LookupFailedPrefix + response.statusText)
    ensures ConfigComplete(config) && response.ok && response.body.NotAnArray? ==> r == Err(NotAnArrayMessage)
    ensures ConfigComplete(config) && response.ok && response.body.ArrayBody? ==>
      r.Ok? && (r.value.None? <==> response.body.items == [])
    ensures r.Ok? && r.value.Some? ==> response.body.ArrayBody? && |r.value.value| == |response.body.items| > 0
    ensures r.Ok? && r.value.Some? ==>
      forall i :: 0 <= i < |response.body.items| ==> r.value.value[i] == ConvertToMediaFormat(response.body.items[i])
  {
    if !ConfigComplete(config) then Err(ConfigErrorMessage)
    else if !response.ok then Err(LookupFailedPrefix + response.statusText)
    else if response.body.NotAnArray? then Err(NotAnArrayMessage)
    else if |response.body.items| == 0 then Ok(None)
    else Ok(Some(MapSeq(response.body.items, ConvertToMediaFormat)))
  }

  /** `getSonarrTmdbIds`: the `tmdbId` of every listed series, in order. */
  function GetSonarrTmdbIds(config: Config, response: Http<ListBody<SonarrSeries>>): (r: Result<seq<Option<int>>>)
    ensures r.Ok? <==> FetchSonarrSeries(config, response).Ok?
    ensures r.Err? ==> r.message == FetchSonarrSeries(config, response).message
    ensures r.Ok? ==> response.body.ArrayBody? && |r.value| == |response.body.items|
    ensures r.Ok? ==> forall i :: 0 <= i < |r.value| ==> r.value[i] == response.body.items[i].tmdbId
  {
    match FetchSonarrSeries(config, response)
    case Err(e) => Err(e)
    case Ok(series) => Ok(MapSeq(series, (m: Media) => m.tmdbId))
  }

  /**
    What `addTVShowToSonarr` returns or throws, given the response of its POST.
    The request body it sends decides nothing here; the service's answer to it
    arrives as `response`.
   */
  function AddTVShowToSonarr(config: Config, response: Http<SeriesBody>): (r: Result<AddSeriesResponse>)
    ensures !ConfigComplete(config) ==> r == Err(ConfigErrorMessage)
    ensures ConfigComplete(config) && !response.ok ==> r == Err(AddFailedPrefix + response.statusText)
    ensures ConfigComplete(config) && response.ok ==>
      r.Ok? && r.value.id == response.body.id && r.value.title == response.body.title &&
      r.value.TmdbId == response.body.TmdbId
  {
    if !ConfigComplete(config) then Err(ConfigErrorMessage)
    else if !response.ok then Err(AddFailedPrefix + response.statusText)
    else Ok(AddSeriesResponse(response.body.id, response.body.title, response.body.TmdbId))
  }

  /** The add request for a series: its ids and title, with fixed defaults for everything else. */
  function GetDefaultAddTVShowParams(tmdbId: Option<int>, title: Option<string>, tvdbId: Value): (r: AddSeriesRequest)
    ensures r.tmdbId == tmdbId && r.title == title && r.tvdbId == tvdbId
    ensures r.qualityProfileId == 1 && r.rootFolderPath == "/media"
    ensures r.monitored && r.searchForMissingEpisodes
  {
    AddSeriesRequest(title, 1, "/media", tmdbId, tvdbId, true, true)
  }
}
