/**
  The movie browse page, src/app/movies/page.tsx: the shared list controller
  with no tabs, no search and no add handler. Each accepted load asks the
  catalog for the current page of its default listing; the catalog and the
  presence source are abstract here, so their results arrive as the
  parameters of `Controller.Complete`.
 */
module MoviesPage {
  import opened Js
  import opened MediaTypes
  import opened PagedList

  class MoviesPage {
    const controller: Controller

    ghost predicate Valid()
      reads controller`page
    {
      controller.Valid()
    }

    constructor()
      ensures Valid() && fresh(controller)
      ensures controller.items == [] && !controller.loading && controller.page == 1
      ensures controller.hasMore && controller.error.None? && controller.presenceCache == []
    {
      controller := new Controller();
    }

    /**
      The part of `loadMoreMovies` before its first await: the guard, then
      `loading` set and `error` cleared, and the page number the catalog is
      asked for.
     */
    method LoadMoreMovies() returns (requestedPage: Option<nat>)
      requires Valid()
      modifies controller`loading, controller`error
      ensures requestedPage.Some? ==> requestedPage.value >= 1
      ensures requestedPage.Some? <==> old(controller.CanLoad())
      ensures requestedPage.Some? ==> requestedPage.value == controller.page
      ensures requestedPage.Some? ==> controller.loading && controller.error.None?
      ensures requestedPage.None? ==>
        controller.loading == old(controller.loading) && controller.error == old(controller.error)
    {
      var accepted := controller.Begin();
      requestedPage := if accepted then Some(controller.page) else None;
    }
  }

  /**
    A scroll trigger that arrives while a page is in flight asks for nothing,
    so each page is requested once; the next trigger asks for the next page.
   */
  method OneRequestPerPage(results: seq<Media>, ids: seq<Option<int>>)
    returns (first: Option<nat>, duplicate: Option<nat>, next: Option<nat>)
    requires results != []
    ensures first == Some(1) && duplicate.None? && next == Some(2)
  {
    var p := new MoviesPage();
    first := p.LoadMoreMovies();
    duplicate := p.LoadMoreMovies();
    var _ := p.controller.Complete(PageLoaded(results), Ok(ids));
    next := p.LoadMoreMovies();
  }

  /**
    With an empty cache, every non-empty page fetches the presence ids again,
    because a load never stores what it fetched.
   */
  method PresenceRefetchedEachPage(first: seq<Media>, second: seq<Media>, ids: seq<Option<int>>)
    returns (fetchedFirst: bool, fetchedSecond: bool, shown: seq<Media>)
    requires first != [] && second != []
    ensures fetchedFirst && fetchedSecond
    ensures shown == Reconcile(first, ids) + Reconcile(second, ids)
  {
    var p := new MoviesPage();
    var r1 := p.LoadMoreMovies();
    fetchedFirst := p.controller.Complete(PageLoaded(first), Ok(ids));
    var r2 := p.LoadMoreMovies();
    fetchedSecond := p.controller.Complete(PageLoaded(second), Ok(ids));
    shown := p.controller.items;
  }
}
