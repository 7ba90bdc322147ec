/**
  The library movie card, src/components/RadarrCard.tsx: the poster URL it
  shows, the unit chosen for a file size, and the date label's empty case.
 */
module RadarrCard {
  import opened Js
  import Radarr

  const PlaceholderPoster := "/placeholder.jpg"
  const UnknownDateText := "未知"
  const Units: seq<string> := ["B", "KB", "MB", "GB", "TB"]

  /**
    The poster shown for a library movie, given the library's base URL ("" when
    unset): the first image whose cover type is "poster"; the placeholder when
    there is none or its url is empty; an absolute url as it is; any other url
    with the base URL in front.
   */
  function GetPosterUrl(images: seq<Radarr.Image>, baseUrl: string): (url: string)
    ensures Radarr.FindPoster(images).None? ==> url == PlaceholderPoster
    ensures Radarr.FindPoster(images).Some? ==>
      var poster := images[Radarr.FindPoster(images).value].url;
      (poster == "" ==> url == PlaceholderPoster) &&
      (poster != "" && StartsWith(poster, "http") ==> url == poster) &&
      (poster != "" && !StartsWith(poster, "http") ==> url == baseUrl + poster)
  {
    match Radarr.FindPoster(images)
    case None => PlaceholderPoster
    case Some(k) =>
      var poster := images[k].url;
      if poster == "" then PlaceholderPoster
      else if StartsWith(poster, "http") then poster
      else baseUrl + poster
  }

  /**
    The date label: the fixed unknown text for "", otherwise `rendered`, the
    date as `toLocaleDateString` renders it for the zh-CN locale.
   */
  function FormatDate(dateString: string, rendered: string): (text: string)
    ensures dateString == "" ==> text == UnknownDateText
    ensures dateString != "" ==> text == rendered
  {
    if dateString == "" then UnknownDateText else rendered
  }

  /** 1024 to the power `k`. */
  function Pow1024(k: nat): (p: real)
    ensures p >= 1.0
    ensures k > 0 ==> p >= 1024.0
  {
    if k == 0 then 1.0 else 1024.0 * Pow1024(k - 1)
  }

  /**
    The unit-selection loop: the size is divided by 1024 while it is at least
    1024 and a larger unit remains. The result is the size in the chosen unit,
    the largest unit (up to TB) in which the size is at least 1.
   */
  method FormatFileSize(bytes: real) returns (size: real, unitIndex: nat, unit: string)
    ensures unitIndex < |Units| && unit == Units[unitIndex]
    ensures size * Pow1024(unitIndex) == bytes
    ensures size < 1024.0 || unitIndex == |Units| - 1
    ensures unitIndex > 0 ==> size >= 1.0
    ensures bytes < 1024.0 ==> unitIndex == 0 && size == bytes
  {
    size := bytes;
    unitIndex := 0;
    while size >= 1024.0 && unitIndex < |Units| - 1
      invariant unitIndex < |Units|
      invariant size * Pow1024(unitIndex) == bytes
      invariant unitIndex > 0 ==> size >= 1.0
      invariant bytes < 1024.0 ==> unitIndex == 0 && size == bytes
      decreases |Units| - unitIndex
    {
      size := size / 1024.0;
      unitIndex := unitIndex + 1;
    }
    unit := Units[unitIndex];
  }
}
