/**
  The one normalised record every client produces (src/types/Media.ts),
  widened to carry `tvdbId` as well, which the converters set although the
  declared interface omits it.
 */
module MediaTypes {
  import opened Js

  datatype MediaType = MediaMovie | MediaTVShow | MediaRadarr | MediaPorn

  /**
    Fields a converter may leave `undefined` are `Option`s; `tvdbId` is a loose
    JSON scalar because the Sonarr client stores `''` into it before converting.
   */
  datatype Media = Media(
    id: Option<int>,
    title: Option<string>,
    posterPath: string,
    overview: Option<string>,
    releaseDate: Option<string>,
    voteAverage: Option<real>,
    tmdbId: Option<int>,
    tvdbId: Value,
    imdbId: Option<string>,
    inRadarr: bool,
    mediatype: MediaType)
}
