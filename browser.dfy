/**
 The two pieces of browser state the pages change: the navigation history that
 `navigate(path)` appends to, and the strings assigned to `document.cookie`.
 */
module Browser {
  import opened Wrappers

  class Window {
    /** Every path passed to `navigate`, oldest first. */
    var history: seq<string>
    /** Every string assigned to `document.cookie`, oldest first. */
    var cookieWrites: seq<string>

    constructor()
      ensures history == [] && cookieWrites == []
    {
      history := [];
      cookieWrites := [];
    }

    /** `navigate(path)`. */
    method Navigate(path: string)
      modifies this`history
      ensures history == old(history) + [path]
    {
      history := history + [path];
    }

    /** `document.cookie = text`. */
    method WriteCookie(text: string)
      modifies this`cookieWrites
      ensures cookieWrites == old(cookieWrites) + [text]
    {
      cookieWrites := cookieWrites + [text];
    }

    /** `navigate(path)` for each path of `paths` in turn. */
    method NavigateAll(paths: seq<string>)
      modifies this`history
      ensures history == old(history) + paths
    {
      history := history + paths;
    }

    /** `document.cookie = text` for each text of `texts` in turn. */
    method WriteCookies(texts: seq<string>)
      modifies this`cookieWrites
      ensures cookieWrites == old(cookieWrites) + texts
    {
      cookieWrites := cookieWrites + texts;
    }

    /** The path of the last navigation, if any. */
    function Location(): (r: Option<string>)
      reads this
      ensures r.None? <==> history == []
      ensures r.Some? ==> r.value == history[|history| - 1]
    {
      if history == [] then None else Some(history[|history| - 1])
    }
  }
}
