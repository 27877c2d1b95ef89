/** The browser state the core touches: `localStorage` (a string-to-string
    map), `window.location.href = '/'`, `window.location.reload()`, and, for
    stating properties only, the log of requests handed to `fetch`. */
module Browser {
  import opened Wrappers
  import opened Http

  class Window {
    /** The contents of `localStorage`. */
    var storage: map<string, string>
    /** `window.location.href` has been set to '/'. */
    var redirectedHome: bool
    /** `window.location.reload()` has been called. */
    var reloadRequested: bool
    /** Every request passed to `fetch`, oldest first. */
    ghost var sent: seq<Request>

    constructor (initial: map<string, string>)
      ensures storage == initial && !redirectedHome && !reloadRequested && sent == []
    {
      storage := initial;
      redirectedHome := false;
      reloadRequested := false;
      sent := [];
    }

    /** `localStorage.getItem(key)`; `None` is null. */
    function GetItem(key: string): (v: Option<string>)
      reads this
      ensures v.Some? <==> key in storage
      ensures v.Some? ==> v.value == storage[key]
    {
      if key in storage then Some(storage[key]) else None
    }

    /** `localStorage.setItem(key, value)`. */
    method SetItem(key: string, value: string)
      modifies this
      ensures storage == old(storage)[key := value]
      ensures redirectedHome == old(redirectedHome) && reloadRequested == old(reloadRequested)
      ensures sent == old(sent)
    {
      storage := storage[key := value];
    }

    /** `localStorage.removeItem(key)`. */
    method RemoveItem(key: string)
      modifies this
      ensures storage == old(storage) - {key}
      ensures redirectedHome == old(redirectedHome) && reloadRequested == old(reloadRequested)
      ensures sent == old(sent)
    {
      storage := storage - {key};
    }

    /** `fetch(request)`: the request goes out and `reply` is what comes back. */
    method Fetch<B>(request: Request, reply: Reply<B>) returns (r: Reply<B>)
      modifies this
      ensures r == reply
      ensures sent == old(sent) + [request]
      ensures storage == old(storage)
      ensures redirectedHome == old(redirectedHome) && reloadRequested == old(reloadRequested)
    {
      sent := sent + [request];
      r := reply;
    }

    /** `window.location.href = '/'`. */
    method RedirectHome()
      modifies this
      ensures redirectedHome
      ensures storage == old(storage) && sent == old(sent) && reloadRequested == old(reloadRequested)
    {
      redirectedHome := true;
    }

    /** `window.location.reload()`. */
    method Reload()
      modifies this
      ensures reloadRequested
      ensures storage == old(storage) && sent == old(sent) && redirectedHome == old(redirectedHome)
    {
      reloadRequested := true;
    }
  }
}
