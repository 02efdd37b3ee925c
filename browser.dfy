/** The browser's session history, as far as the router sees it: a list of
    visited paths and a cursor at the current one. */
module Browser {

  class BrowserHistory {
    var entries: seq<string>
    var cursor: nat

    ghost predicate Valid()
      reads this
    {
      cursor < |entries|
    }

    /** `window.location.pathname`: the path of the current entry. */
    function Location(): string
      reads this
      requires Valid()
    {
      entries[cursor]
    }

    /** A fresh tab that has loaded `initial`. */
    constructor (initial: string)
      ensures Valid()
      ensures entries == [initial] && cursor == 0
    {
      entries := [initial];
      cursor := 0;
    }

    /** `history.pushState`: drops every forward entry, appends `path` and
        makes it current. It fires no popstate event. */
    method PushState(path: string)
      requires Valid()
      modifies this
      ensures Valid()
      ensures entries == old(entries[..cursor + 1]) + [path]
      ensures cursor == old(cursor) + 1
      ensures Location() == path
    {
      entries := entries[..cursor + 1] + [path];
      cursor := cursor + 1;
    }

    /** `history.go(delta)` within the session: moves the cursor when the
        target entry exists and reports whether it moved (a move is what
        fires popstate). A zero delta, which would reload the document, and
        a target outside the session leave the history unchanged. */
    method Go(delta: int) returns (moved: bool)
      requires Valid()
      modifies this
      ensures Valid()
      ensures entries == old(entries)
      ensures moved <==> delta != 0 && 0 <= old(cursor) + delta < |entries|
      ensures cursor == if moved then old(cursor) + delta else old(cursor)
    {
      moved := delta != 0 && 0 <= cursor + delta < |entries|;
      if moved {
        cursor := cursor + delta;
      }
    }
  }
}
