/**
  The paged list controller shared by the two browse pages
  (src/app/tvshow/page.tsx and src/app/movies/page.tsx): the accumulated
  list, the page cursor, the loading and exhaustion flags, the error text and
  the cached presence ids. One asynchronous load is split into `Begin` (the
  guard and the flags set before the first await) and `Complete` (everything
  after the catalog page and, when needed, the presence ids have arrived);
  the fetched values are parameters.
 */
module PagedList {
  import opened Js
  import opened MediaTypes
  import Catalog

  /** The browse pages' error text for a thrown value that is not an `Error`, used through `MessageOr`. */
  const UnknownErrorText := "发生未知错误"
  /** How close to the bottom of the document a scroll must come to trigger a load. */
  const ScrollThreshold: real := 100.0

  /** The catalog page as the awaited call delivers it: its results, or what it threw. */
  datatype PageOutcome = PageLoaded(results: seq<Media>) | PageFailed(thrown: Thrown)

  /** A catalog client's result seen by the page: a thrown `Error` keeps its message. */
  function FromCatalog(r: Result<Catalog.MediaPage>): (outcome: PageOutcome)
    ensures r.Ok? <==> outcome.PageLoaded?
    ensures r.Ok? ==> outcome.results == r.value.results
    ensures r.Err? ==> MessageOr(outcome.thrown, UnknownErrorText) == r.message
  {
    match r
    case Ok(p) => PageLoaded(p.results)
    case Err(m) => PageFailed(ErrorObject(m))
  }

  /** The ids reconciliation uses: the cache when it is non-empty, otherwise a fresh fetch. */
  function ChooseIds(cache: seq<Option<int>>, fetched: Result<seq<Option<int>>>): (r: Result<seq<Option<int>>>)
    ensures cache != [] ==> r == Ok(cache)
    ensures cache == [] ==> r == fetched
  {
    if |cache| > 0 then Ok(cache) else fetched
  }

  /** Stamps every item of a page with its presence: in the library iff its id is listed. */
  function Reconcile(items: seq<Media>, ids: seq<Option<int>>): (r: seq<Media>)
    ensures |r| == |items|
    ensures forall i :: 0 <= i < |items| ==> (r[i].inRadarr <==> items[i].id in ids)
    ensures forall i :: 0 <= i < |items| ==> r[i].(inRadarr := items[i].inRadarr) == items[i]
  {
    MapSeq(items, (m: Media) => m.(inRadarr := m.id in ids))
  }

  /**
    Reconciling page by page is reconciling the whole list: appending a
    reconciled page to a reconciled list gives the reconciled concatenation.
   */
  lemma ReconcileAppend(shown: seq<Media>, page: seq<Media>, ids: seq<Option<int>>)
    ensures Reconcile(shown, ids) + Reconcile(page, ids) == Reconcile(shown + page, ids)
  {
  }

  /** The optimistic update after a successful add: exactly the items with that id become present. */
  function MarkAdded(items: seq<Media>, id: Option<int>): (r: seq<Media>)
    ensures |r| == |items|
    ensures forall i :: 0 <= i < |items| && items[i].id == id ==> r[i] == items[i].(inRadarr := true)
    ensures forall i :: 0 <= i < |items| && items[i].id != id ==> r[i] == items[i]
  {
    MapSeq(items, (m: Media) => if m.id == id then m.(inRadarr := true) else m)
  }

  lemma MarkAddedIdempotent(items: seq<Media>, id: Option<int>)
    ensures MarkAdded(MarkAdded(items, id), id) == MarkAdded(items, id)
  {
  }

  /** The scroll handler's condition: the viewport's bottom is within 100 of the document's bottom. */
  function NearBottom(innerHeight: real, scrollTop: real, scrollHeight: real): (fire: bool)
    ensures fire <==> scrollHeight - (scrollTop + innerHeight) <= ScrollThreshold
  {
    innerHeight + scrollTop >= scrollHeight - ScrollThreshold
  }

  class Controller {
    var items: seq<Media>
    var loading: bool
    var page: nat
    var hasMore: bool
    var error: Option<string>
    var presenceCache: seq<Option<int>>

    /** Pages are numbered from 1, so the catalog is never asked for page 0. */
    ghost predicate Valid()
      reads this`page
    {
      page >= 1
    }

    /** The guard of a load: not already loading and not exhausted. */
    predicate CanLoad()
      reads this
    {
      !loading && hasMore
    }

    constructor()
      ensures Valid()
      ensures items == [] && !loading && page == 1 && hasMore && error.None? && presenceCache == []
    {
      items, loading, page, hasMore, error, presenceCache := [], false, 1, true, None, [];
    }

    /**
      Stores presence ids in the cache (`setSonarrTmdbIds`). Only the
      initial-load effect does this, on mount and, on the TV page, again
      after each tab or search change; that effect is not modelled. A load
      sees the stored ids once the page has re-rendered with them.
     */
    method SetPresenceCache(ids: seq<Option<int>>)
      modifies this`presenceCache
      ensures presenceCache == ids
    {
      presenceCache := ids;
    }

    /**
      A load trigger. A trigger while loading or exhausted changes nothing;
      an accepted one sets `loading` and clears `error` before anything is fetched.
     */
    method Begin() returns (accepted: bool)
      modifies this`loading, this`error
      ensures accepted == old(CanLoad())
      ensures accepted ==> loading && error.None?
      ensures !accepted ==> loading == old(loading) && error == old(error)
    {
      if loading || !hasMore {
        return false;
      }
      loading := true;
      error := None;
      accepted := true;
    }

    /**
      The rest of an accepted load, once the catalog page (and, only for a
      non-empty page with an empty cache, the presence ids) has arrived.
      An empty page exhausts the list; a non-empty one is appended, reconciled,
      and advances the cursor by one; a failure records its text and adds
      nothing. `loading` is false afterwards in every case, and the fetched ids
      are not cached.
     */
    method Complete(outcome: PageOutcome, fetchedIds: Result<seq<Option<int>>>) returns (presenceFetched: bool)
      requires Valid() && loading
      modifies this`items, this`loading, this`page, this`hasMore, this`error
      ensures Valid() && !loading
      ensures presenceFetched <==> outcome.PageLoaded? && outcome.results != [] && presenceCache == []
      ensures outcome.PageLoaded? && outcome.results == [] ==>
        !hasMore && items == old(items) && page == old(page) && error == old(error)
      ensures outcome.PageFailed? ==>
        error == Some(MessageOr(outcome.thrown, UnknownErrorText)) &&
        items == old(items) && page == old(page) && hasMore == old(hasMore)
      ensures outcome.PageLoaded? && outcome.results != [] && ChooseIds(presenceCache, fetchedIds).Err? ==>
        error == Some(ChooseIds(presenceCache, fetchedIds).message) &&
        items == old(items) && page == old(page) && hasMore == old(hasMore)
      ensures outcome.PageLoaded? && outcome.results != [] && ChooseIds(presenceCache, fetchedIds).Ok? ==>
        items == old(items) + Reconcile(outcome.results, ChooseIds(presenceCache, fetchedIds).value) &&
        page == old(page) + 1 && hasMore == old(hasMore) && error == old(error)
    {
      presenceFetched := false;
      match outcome {
        case PageFailed(thrown) =>
          error := Some(MessageOr(thrown, UnknownErrorText));
        case PageLoaded(results) =>
          if |results| == 0 {
            hasMore := false;
          } else {
            presenceFetched := |presenceCache| == 0;
            var ids := ChooseIds(presenceCache, fetchedIds);
            if ids.Err? {
              error := Some(ids.message);
            } else {
              items := items + Reconcile(results, ids.value);
              page := page + 1;
            }
          }
      }
      loading := false;
    }

    /** A change of scope: the list is emptied and the cursor rewound; `error` and `loading` are untouched. */
    method Reset()
      modifies this`items, this`page, this`hasMore
      ensures Valid()
      ensures items == [] && page == 1 && hasMore
    {
      items, page, hasMore := [], 1, true;
    }
  }
}
