/** The `useRoute` hook: the route the page currently shows, kept in step
    with the browser's address by `navigate` and by the popstate handler. */
module Navigation {
  import opened Routing
  import opened Browser

  class Router {
    const history: BrowserHistory
    var route: Route
    /** How many times a smooth scroll to the top has been requested. */
    var scrollRequests: nat

    /** The route shown is the one the current address resolves to. */
    ghost predicate Valid()
      reads this, history
    {
      history.Valid() && route == ParseRoute(history.Location())
    }

    /** The hook's initial state: the route of the address the page loaded. */
    constructor (history: BrowserHistory)
      requires history.Valid()
      ensures this.history == history && Valid()
      ensures scrollRequests == 0
    {
      this.history := history;
      route := ParseRoute(history.Location());
      scrollRequests := 0;
    }

    /** `navigate(pathname)`: pushes a history entry only when `path` is not
        exactly (case-sensitively) the current address, then always shows
        `ParseRoute(path)` and requests a scroll to the top. */
    method Navigate(path: string)
      requires Valid()
      modifies this, history
      ensures Valid()
      ensures history.Location() == path && route == ParseRoute(path)
      ensures old(history.Location()) == path ==>
                history.entries == old(history.entries) && history.cursor == old(history.cursor)
      ensures old(history.Location()) != path ==>
                history.entries == old(history.entries[..history.cursor + 1]) + [path] &&
                history.cursor == old(history.cursor) + 1
      ensures scrollRequests == old(scrollRequests) + 1
    {
      if path != history.Location() {
        history.PushState(path);
      }
      route := ParseRoute(path);
      scrollRequests := scrollRequests + 1;
    }

    /** The popstate handler: re-resolves the route from the current address.
        It runs after the browser has already moved, so it does not require
        the route to be in step beforehand, and it changes nothing else. */
    method HandlePopState()
      requires history.Valid()
      modifies this`route
      ensures Valid()
      ensures route == ParseRoute(history.Location())
    {
      route := ParseRoute(history.Location());
    }

    /** The visitor presses back or forward (`delta` entries): the browser
        moves within the session and, if it moved, fires popstate. */
    method Traverse(delta: int)
      requires Valid()
      modifies this, history
      ensures Valid()
      ensures history.entries == old(history.entries)
      ensures history.cursor ==
                if delta != 0 && 0 <= old(history.cursor) + delta < |history.entries|
                then old(history.cursor) + delta else old(history.cursor)
      ensures route == ParseRoute(history.Location())
      ensures scrollRequests == old(scrollRequests)
    {
      var moved := history.Go(delta);
      if moved {
        HandlePopState();
      }
    }
  }
}
