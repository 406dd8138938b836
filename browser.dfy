/** The browser state the core touches: the two `localStorage` entries holding the
    credentials, and a log of navigations. */
module Browser {
  import opened Wrappers

  datatype Key = AccessToken | RefreshToken

  /** `localStorage.getItem(k)` gives a value the code treats as present (`if (token)`):
      stored and not the empty string. */
  predicate Present(v: Option<string>) {
    v.Some? && v.value != ""
  }

  /** `localStorage`, restricted to the keys `accessToken` and `refreshToken`. */
  class TokenStore {
    var accessToken: Option<string>
    var refreshToken: Option<string>

    constructor ()
      ensures accessToken == None && refreshToken == None
    {
      accessToken, refreshToken := None, None;
    }

    /** `localStorage.getItem(k)`. */
    function GetItem(k: Key): Option<string>
      reads this
    {
      match k
      case AccessToken => accessToken
      case RefreshToken => refreshToken
    }

    /** `localStorage.setItem(k, value)`. */
    method SetItem(k: Key, value: string)
      modifies this
      ensures GetItem(k) == Some(value)
      ensures forall other :: other != k ==> GetItem(other) == old(GetItem(other))
    {
      match k
      case AccessToken => accessToken := Some(value);
      case RefreshToken => refreshToken := Some(value);
    }

    /** `localStorage.removeItem(k)`. */
    method RemoveItem(k: Key)
      modifies this
      ensures GetItem(k) == None
      ensures forall other :: other != k ==> GetItem(other) == old(GetItem(other))
    {
      match k
      case AccessToken => accessToken := None;
      case RefreshToken => refreshToken := None;
    }
  }

  /** A navigation the code starts. */
  datatype Nav =
    | Assign(path: string)                // `window.location.href = path`: a full page load
    | Push(path: string)                  // `router.push(path)`: an in-app route change
    | PushAfter(path: string, ms: nat)    // `setTimeout(() => router.push(path), ms)`

  /** The navigations started so far, oldest first. */
  class Router {
    var log: seq<Nav>

    constructor ()
      ensures log == []
    {
      log := [];
    }

    method Go(n: Nav)
      modifies this
      ensures log == old(log) + [n]
    {
      log := log + [n];
    }
  }
}
