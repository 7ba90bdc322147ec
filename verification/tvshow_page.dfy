/**
  The TV browse page, src/app/tvshow/page.tsx: the shared list controller
  plus the active tab and the search text, which choose what a load asks the
  catalog for, the two handlers that change scope, and the optimistic update
  after a successful add. Below the class, client methods run the page
  through whole scenarios.
 */
module TvShowPage {
  import opened Js
  import opened MediaTypes
  import opened PagedList
  import Catalog
  import TvShow
  import MediaCard
  import Sonarr

  /** What an accepted load asks the catalog for. */
  datatype CatalogQuery = SearchQuery(query: string, page: nat) | BrowseTab(page: nat, tab: string)

  /**
    The catalog request behind a query: a typed query is searched, otherwise
    the active tab is browsed, with the tab passed through as the category.
   */
  function RequestFor(q: CatalogQuery, apiKey: string): (r: Result<Catalog.Request>)
    ensures q.SearchQuery? ==> r == TvShow.SearchTVShowsRequest(apiKey, q.query, q.page)
    ensures q.BrowseTab? ==> r == TvShow.FetchTVShowsRequest(apiKey, q.page, q.tab)
    ensures apiKey == "" <==> r.Err?
    ensures r.Ok? ==> (r.value.endpoint == "search/tv" <==> q.SearchQuery?)
    ensures r.Ok? ==> "page" in r.value.params && r.value.params["page"] == NatToString(q.page)
  {
    match q
    case SearchQuery(query, page) => TvShow.SearchTVShowsRequest(apiKey, query, page)
    case BrowseTab(page, tab) =>
      var r := TvShow.FetchTVShowsRequest(apiKey, page, tab);
      assert r.Ok? && Catalog.IsNamedCategory(tab) ==> r.value.endpoint[0] == 't';
      r
  }

  class TvShowPage {
    const controller: Controller
    var activeTab: string
    var searchQuery: string

    ghost predicate Valid()
      reads controller`page
    {
      controller.Valid()
    }

    constructor()
      ensures Valid() && fresh(controller)
      ensures activeTab == "popular" && searchQuery == ""
      ensures controller.items == [] && !controller.loading && controller.page == 1
      ensures controller.hasMore && controller.error.None? && controller.presenceCache == []
    {
      controller := new Controller();
      activeTab := "popular";
      searchQuery := "";
    }

    /**
      The part of `loadMoreTVShows` before its first await: the guard, then
      `loading` set and `error` cleared, and the choice of catalog call for the
      current page.
     */
    method LoadMoreTVShows() returns (query: Option<CatalogQuery>)
      requires Valid()
      modifies controller`loading, controller`error
      ensures query.Some? ==> query.value.page >= 1
      ensures query.Some? <==> old(controller.CanLoad())
      ensures query.Some? ==> controller.loading && controller.error.None?
      ensures query.Some? && searchQuery != "" ==> query.value == SearchQuery(searchQuery, controller.page)
      ensures query.Some? && searchQuery == "" ==> query.value == BrowseTab(controller.page, activeTab)
      ensures query.None? ==> controller.loading == old(controller.loading) && controller.error == old(controller.error)
    {
      var accepted := controller.Begin();
      if !accepted {
        return None;
      }
      if searchQuery != "" {
        query := Some(SearchQuery(searchQuery, controller.page));
      } else {
        query := Some(BrowseTab(controller.page, activeTab));
      }
    }

    /**
      A new tab: the list is emptied and rewound, `error` and `loading` are left
      as they are. The tabs are rendered only while no error is shown.
     */
    method HandleTabChange(newValue: string)
      requires Valid() && controller.error.None?
      modifies this`activeTab, controller`items, controller`page, controller`hasMore
      ensures Valid()
      ensures activeTab == newValue && searchQuery == old(searchQuery)
      ensures controller.items == [] && controller.page == 1 && controller.hasMore
      ensures controller.loading == old(controller.loading) && controller.error == old(controller.error)
    {
      activeTab := newValue;
      controller.Reset();
    }

    /**
      New search text: the list is emptied and rewound, `error` and `loading`
      are left as they are. The search field is rendered only while no error is shown.
     */
    method HandleSearchChange(value: string)
      requires Valid() && controller.error.None?
      modifies this`searchQuery, controller`items, controller`page, controller`hasMore
      ensures Valid()
      ensures searchQuery == value && activeTab == old(activeTab)
      ensures controller.items == [] && controller.page == 1 && controller.hasMore
      ensures controller.loading == old(controller.loading) && controller.error == old(controller.error)
    {
      searchQuery := value;
      controller.Reset();
    }

    /** After a successful add, every listed show with that id is marked present. */
    method HandleAddSuccess(id: Option<int>)
      modifies controller`items
      ensures controller.items == MarkAdded(old(controller.items), id)
    {
      controller.items := MarkAdded(controller.items, id);
    }
  }

  /**
    No request is tagged with its scope: a page requested for one tab that
    arrives after the switch to another tab fills the new, emptied list.
   */
  method StaleScopeIsAppended(oldTabResults: seq<Media>, ids: seq<Option<int>>) returns (shown: seq<Media>, cursor: nat)
    requires oldTabResults != [] && ids != []
    ensures shown == Reconcile(oldTabResults, ids)
    ensures cursor == 2
  {
    var p := new TvShowPage();
    p.controller.SetPresenceCache(ids);
    var query := p.LoadMoreTVShows();
    assert query == Some(BrowseTab(1, "popular"));
    p.HandleTabChange("top_rated");
    var _ := p.controller.Complete(PageLoaded(oldTabResults), Err("unused"));
    shown, cursor := p.controller.items, p.controller.page;
  }

  /**
    A show marked present after an add stays present when a later page is
    reconciled against the stale cached ids, and the cache is not refetched.
    The loads here are scroll-triggered loads on a page whose cache already
    holds the ids, as it does once the initial-load effect has stored them
    and the page has re-rendered.
   */
  method AddSurvivesLaterPage(first: seq<Media>, second: seq<Media>, ids: seq<Option<int>>, k: nat)
    returns (present: bool, refetched: bool)
    requires k < |first| && second != [] && ids != []
    ensures present && !refetched
  {
    var p := new TvShowPage();
    p.controller.SetPresenceCache(ids);
    var q1 := p.LoadMoreTVShows();
    var f1 := p.controller.Complete(PageLoaded(first), Err("unused"));
    p.HandleAddSuccess(first[k].id);
    assert p.controller.items[k].inRadarr;
    var q2 := p.LoadMoreTVShows();
    assert q2.Some?;
    var f2 := p.controller.Complete(PageLoaded(second), Err("unused"));
    present := p.controller.items[k].inRadarr;
    refetched := f1 || f2;
  }

  /**
    A failed load does not stop the page: the next trigger is accepted and
    clears the error text again.
   */
  method FailureDoesNotHalt(thrown: Thrown) returns (shownError: Option<string>, retried: bool, errorAfterRetry: Option<string>)
    ensures shownError == Some(MessageOr(thrown, UnknownErrorText))
    ensures retried && errorAfterRetry.None?
  {
    var p := new TvShowPage();
    var q1 := p.LoadMoreTVShows();
    var _ := p.controller.Complete(PageFailed(thrown), Err("unused"));
    shownError := p.controller.error;
    var q2 := p.LoadMoreTVShows();
    retried := q2.Some?;
    errorAfterRetry := p.controller.error;
  }

  /**
    An empty page exhausts the list: later triggers ask for nothing until the
    scope changes, after which page 1 is asked for again.
   */
  method ExhaustionStopsTriggers(tab: string) returns (afterEmpty: Option<CatalogQuery>, afterReset: Option<CatalogQuery>)
    ensures afterEmpty.None?
    ensures afterReset == Some(BrowseTab(1, tab))
  {
    var p := new TvShowPage();
    var q1 := p.LoadMoreTVShows();
    var _ := p.controller.Complete(PageLoaded([]), Err("unused"));
    afterEmpty := p.LoadMoreTVShows();
    p.HandleTabChange(tab);
    afterReset := p.LoadMoreTVShows();
  }

  /**
    A card on the first page adds its show: the show is marked present exactly
    when the card's add ends in success, which for a TV show needs a lookup
    that found a match and an add that resolved.
   */
  method AddThroughCard(results: seq<Media>, k: nat, lookup: MediaCard.Settled<Option<seq<Media>>>, added: MediaCard.Settled<()>)
    returns (calls: seq<MediaCard.LibraryCall>, present: bool)
    requires k < |results| && results[k].mediatype == MediaTVShow
    ensures |calls| > 0 && calls[0] == MediaCard.LookupSeries(results[k].tmdbId)
    ensures present <==> lookup.Resolved? && MediaCard.HasMatch(lookup.value) && added.Resolved?
  {
    var p := new TvShowPage();
    var q := p.LoadMoreTVShows();
    var _ := p.controller.Complete(PageLoaded(results), Ok([]));
    var shown := p.controller.items[k];
    assert shown == results[k].(inRadarr := false);
    var card := new MediaCard.MediaCard(shown);
    var started := card.StartAdd();
    var succeeded;
    calls, succeeded := card.FinishAdd(lookup, added);
    if succeeded {
      p.HandleAddSuccess(shown.id);
    }
    present := p.controller.items[k].inRadarr;
  }

  /**
    A load of page 1 of the popular tab on an empty id cache, with real client
    results: the page shows the converted catalog results marked by the show
    library's ids, or the text of whichever call failed. This is not the
    initial-load effect's load (on mount or after a scope change), which
    fetches the ids first and skips the load silently when that fetch fails.
   */
  method FirstPageFromClients(apiKey: string, catalog: Http<Catalog.RawPage>,
                              config: Sonarr.Config, library: Http<ListBody<Sonarr.SonarrSeries>>)
    returns (request: Result<Catalog.Request>, shown: seq<Media>, error: Option<string>)
    ensures request == TvShow.FetchTVShowsRequest(apiKey, 1, "popular")
    ensures apiKey == "" ==> shown == [] && error == Some(TvShow.MissingKeyMessage)
    ensures apiKey != "" && !catalog.ok ==> shown == [] && error == Some(TvShow.FetchFailedPrefix + catalog.statusText)
    ensures apiKey != "" && catalog.ok && catalog.body.results == [] ==> shown == [] && error.None?
    ensures apiKey != "" && catalog.ok && catalog.body.results != [] && Sonarr.GetSonarrTmdbIds(config, library).Err? ==>
      shown == [] && error == Some(Sonarr.GetSonarrTmdbIds(config, library).message)
    ensures apiKey != "" && catalog.ok && catalog.body.results != [] && Sonarr.GetSonarrTmdbIds(config, library).Ok? ==>
      error.None? &&
      shown == Reconcile(MapSeq(catalog.body.results, TvShow.ConvertToMediaFormat), Sonarr.GetSonarrTmdbIds(config, library).value)
  {
    var p := new TvShowPage();
    var query := p.LoadMoreTVShows();
    request := RequestFor(query.value, apiKey);
    var outcome := FromCatalog(TvShow.FetchTVShows(apiKey, catalog));
    var _ := p.controller.Complete(outcome, Sonarr.GetSonarrTmdbIds(config, library));
    shown, error := p.controller.items, p.controller.error;
  }
}
