/**
  The add-to-library card, src/components/MediaCard.tsx: which library calls
  a click issues and in what order, the card's `isAdding` flag and snackbar,
  and the release year it displays. The calls' results are parameters.
 */
module MediaCard {
  import opened Js
  import opened MediaTypes
  import Radarr
  import Sonarr

  const AddedMessage := "本地库添加成功"
  const AddFailedFallback := "本地库添加失败"
  const NoSeriesMessage := "未找到对应的电视剧"

  /** How an awaited library call settled. */
  datatype Settled<+T> = Resolved(value: T) | Rejected(reason: Thrown)

  /** A library client's result as awaited: a thrown `Error` keeps its message. */
  function Settle<T>(r: Result<T>): (s: Settled<T>)
    ensures r.Ok? <==> s.Resolved?
    ensures r.Ok? ==> s.value == r.value
    ensures r.Err? ==> s.reason == ErrorObject(r.message)
  {
    match r
    case Ok(v) => Resolved(v)
    case Err(m) => Rejected(ErrorObject(m))
  }

  /** The library calls a click can issue. */
  datatype LibraryCall =
    | LookupSeries(tmdbId: Option<int>)
    | AddMovie(movieRequest: Radarr.AddMovieRequest)
    | AddSeries(seriesRequest: Sonarr.AddSeriesRequest)

  datatype AddOutcome = Succeeded | Failed(thrown: Thrown)

  /** What one run of the add handler does: the calls it issues, in order, and how it ends. */
  datatype AddRun = AddRun(calls: seq<LibraryCall>, outcome: AddOutcome)

  datatype Severity = Success | Error

  datatype Snackbar = Snackbar(open: bool, message: string, severity: Severity)

  /** A series lookup that found something: not null and not empty. */
  predicate HasMatch(lookup: Option<seq<Media>>) {
    lookup.Some? && |lookup.value| > 0
  }

  /**
    The add handler's decision. A movie is added straight away. A TV show is
    looked up by its catalog id first, and is added, with the first match's
    `tvdbId`, only when the lookup found something. Any other kind issues no
    call and still ends as a success.
   */
  function AddDecision<A>(movie: Media, lookup: Settled<Option<seq<Media>>>, added: Settled<A>): (r: AddRun)
    ensures movie.mediatype == MediaMovie ==>
      r.calls == [AddMovie(Radarr.GetDefaultAddMovieParams(movie.id, movie.title))] &&
      (r.outcome.Succeeded? <==> added.Resolved?)
    ensures movie.mediatype == MediaTVShow ==> |r.calls| > 0 && r.calls[0] == LookupSeries(movie.tmdbId)
    ensures movie.mediatype == MediaTVShow && lookup.Rejected? ==>
      r.calls == [LookupSeries(movie.tmdbId)] && r.outcome == Failed(lookup.reason)
    ensures movie.mediatype == MediaTVShow && lookup.Resolved? && !HasMatch(lookup.value) ==>
      r.calls == [LookupSeries(movie.tmdbId)] && r.outcome == Failed(ErrorObject(NoSeriesMessage))
    ensures movie.mediatype == MediaTVShow && lookup.Resolved? && HasMatch(lookup.value) ==>
      r.calls == [LookupSeries(movie.tmdbId),
                  AddSeries(Sonarr.GetDefaultAddTVShowParams(movie.id, movie.title, lookup.value.value[0].tvdbId))] &&
      (r.outcome.Succeeded? <==> added.Resolved?)
    ensures movie.mediatype !in {MediaMovie, MediaTVShow} ==> r.calls == [] && r.outcome == Succeeded
    ensures r.outcome.Failed? && r.outcome != Failed(ErrorObject(NoSeriesMessage)) ==>
      r.outcome.thrown == (if lookup.Rejected? && movie.mediatype == MediaTVShow then lookup.reason else added.reason)
  {
    var finish := if added.Resolved? then Succeeded else Failed(added.reason);
    match movie.mediatype
    case MediaMovie =>
      AddRun([AddMovie(Radarr.GetDefaultAddMovieParams(movie.id, movie.title))], finish)
    case MediaTVShow =>
      var lookupCall := LookupSeries(movie.tmdbId);
      if lookup.Rejected? then AddRun([lookupCall], Failed(lookup.reason))
      else if !HasMatch(lookup.value) then AddRun([lookupCall], Failed(ErrorObject(NoSeriesMessage)))
      else
        var request := Sonarr.GetDefaultAddTVShowParams(movie.id, movie.title, lookup.value.value[0].tvdbId);
        AddRun([lookupCall, AddSeries(request)], finish)
    case _ => AddRun([], Succeeded)
  }

  /** A series is never added unless a lookup for it was issued first and found a match. */
  lemma NoSeriesAddWithoutMatch<A>(movie: Media, lookup: Settled<Option<seq<Media>>>, added: Settled<A>, i: nat)
    requires i < |AddDecision(movie, lookup, added).calls|
    requires AddDecision(movie, lookup, added).calls[i].AddSeries?
    ensures movie.mediatype == MediaTVShow && i == 1
    ensures AddDecision(movie, lookup, added).calls[0] == LookupSeries(movie.tmdbId)
    ensures lookup.Resolved? && HasMatch(lookup.value)
    ensures AddDecision(movie, lookup, added).calls[i].seriesRequest.tvdbId == lookup.value.value[0].tvdbId
  {
  }

  /** The snackbar the handler leaves: a fixed success text, or the thrown message (with a fallback). */
  function SnackbarFor(outcome: AddOutcome): (s: Snackbar)
    ensures s.open
    ensures outcome.Succeeded? <==> s.severity == Success
    ensures outcome.Succeeded? ==> s.message == AddedMessage
    ensures outcome.Failed? ==> s.message == MessageOr(outcome.thrown, AddFailedFallback)
  {
    match outcome
    case Succeeded => Snackbar(true, AddedMessage, Success)
    case Failed(t) => Snackbar(true, MessageOr(t, AddFailedFallback), Error)
  }

  /**
    The text under the title: the part of the release date before its first
    '-', or "" when there is no date.
   */
  function ReleaseYear(releaseDate: Option<string>): (year: string)
    ensures !TruthyString(releaseDate) ==> year == ""
    ensures TruthyString(releaseDate) ==> StartsWith(releaseDate.value, year)
    ensures '-' !in year
    ensures TruthyString(releaseDate) && |year| < |releaseDate.value| ==> releaseDate.value[|year|] == '-'
  {
    if TruthyString(releaseDate) then BeforeDash(releaseDate.value) else ""
  }

  /** `s.split("-")[0]` */
  function BeforeDash(s: string): (p: string)
    ensures StartsWith(s, p)
    ensures '-' !in p
    ensures |p| < |s| ==> s[|p|] == '-'
  {
    if s == [] || s[0] == '-' then "" else [s[0]] + BeforeDash(s[1..])
  }

  class MediaCard {
    const movie: Media
    var isAdding: bool
    var snackbar: Snackbar

    constructor(movie: Media)
      ensures this.movie == movie
      ensures !isAdding && snackbar == Snackbar(false, "", Success)
    {
      this.movie := movie;
      isAdding := false;
      snackbar := Snackbar(false, "", Success);
    }

    /**
      A click on the add button. The button exists only while the item is
      not in the library and is disabled while an add is running; a click
      that gets through sets `isAdding` before any call.
     */
    method StartAdd() returns (started: bool)
      modifies this`isAdding
      ensures started <==> !movie.inRadarr && !old(isAdding)
      ensures isAdding == (old(isAdding) || started)
    {
      started := !movie.inRadarr && !isAdding;
      if started {
        isAdding := true;
      }
    }

    /**
      The rest of the handler once its calls have settled: the snackbar tells
      how it ended, `onAddSuccess` is called once on success and never on
      failure, and `isAdding` is false again whatever the outcome.
     */
    method FinishAdd<A>(lookup: Settled<Option<seq<Media>>>, added: Settled<A>)
      returns (calls: seq<LibraryCall>, onAddSuccessCalled: bool)
      requires isAdding
      modifies this`isAdding, this`snackbar
      ensures !isAdding
      ensures calls == AddDecision(movie, lookup, added).calls
      ensures onAddSuccessCalled <==> AddDecision(movie, lookup, added).outcome.Succeeded?
      ensures snackbar == SnackbarFor(AddDecision(movie, lookup, added).outcome)
    {
      var run := AddDecision(movie, lookup, added);
      calls := run.calls;
      snackbar := SnackbarFor(run.outcome);
      onAddSuccessCalled := run.outcome.Succeeded?;
      isAdding := false;
    }

    /** Closing hides the snackbar and keeps its text and severity. */
    method HandleCloseSnackbar()
      modifies this`snackbar
      ensures snackbar == old(snackbar).(open := false)
    {
      snackbar := snackbar.(open := false);
    }
  }

  /**
    A TV card's add run against the show library, from the responses of the
    lookup and of the POST: the show is added, with the `tvdbId` of the first
    library match, exactly when the configuration is complete, the lookup
    found a match and the POST succeeded.
   */
  method AddSeriesFromResponses(show: Media, config: Sonarr.Config,
                                lookupResponse: Http<ListBody<Sonarr.SonarrSeries>>, addResponse: Http<Sonarr.SeriesBody>)
    returns (calls: seq<LibraryCall>, succeeded: bool, shown: Snackbar)
    requires show.mediatype == MediaTVShow && !show.inRadarr
    ensures succeeded <==>
      Sonarr.ConfigComplete(config) && lookupResponse.ok && lookupResponse.body.ArrayBody? &&
      lookupResponse.body.items != [] && addResponse.ok
    ensures |calls| == 2 <==>
      Sonarr.ConfigComplete(config) && lookupResponse.ok && lookupResponse.body.ArrayBody? && lookupResponse.body.items != []
    ensures |calls| == 2 ==>
      calls[1].AddSeries? && calls[1].seriesRequest.tvdbId == Sonarr.ConvertToMediaFormat(lookupResponse.body.items[0]).tvdbId
    ensures !Sonarr.ConfigComplete(config) ==> calls == [LookupSeries(show.tmdbId)] && shown.message == Sonarr.ConfigErrorMessage
    ensures succeeded ==> shown.message == AddedMessage
  {
    var card := new MediaCard(show);
    var started := card.StartAdd();
    var lookup := Settle(Sonarr.GetSeriesByTmdbId(config, lookupResponse));
    var added := Settle(Sonarr.AddTVShowToSonarr(config, addResponse));
    calls, succeeded := card.FinishAdd(lookup, added);
    shown := card.snackbar;
  }
}
