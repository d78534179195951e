/**
 * The browser state the client reads and writes: whether a `window` exists
 * at all (code may also run on the server), the `auth_token` cookie, the
 * `auth_token` entry of `localStorage`, the current path, and the last
 * location the client assigned to `window.location.href`.
 *
 * `Token`, `Stored` and `Cleared` specify the token management of
 * `ApiClient` (`getToken`, `setToken`, `clearToken`): two redundant stores,
 * the cookie preferred on read. The class `Browser` is that state, changed
 * in place.
 */
module TokenStore {
  import opened Types

  datatype BrowserState = BrowserState(
    hasWindow: bool,
    cookie: Option<string>,
    local: Option<string>,
    pathname: string,
    navigatedTo: Option<string>)
  {
    /** `getToken()`: null outside a browser; the cookie when it holds a
        non-empty value; otherwise whatever the local store holds. */
    function Token(): Option<string> {
      if !hasWindow then None
      else if Present(cookie) then cookie
      else local
    }

    /** The state after `setToken(token)`. */
    function Stored(token: string): BrowserState {
      if !hasWindow then this else this.(cookie := Some(token), local := Some(token))
    }

    /** The state after `clearToken()`. */
    function Cleared(): BrowserState {
      if !hasWindow then this else this.(cookie := None, local := None)
    }
  }

  /** Writing a token and reading it back gives exactly that token, whether or
      not the cookie store kept a non-empty value; outside a browser the read
      gives null. The current path and navigation are untouched. */
  lemma SetThenGet(b: BrowserState, token: string)
    ensures b.Stored(token).Token() == if b.hasWindow then Some(token) else None
    ensures b.Stored(token).pathname == b.pathname && b.Stored(token).navigatedTo == b.navigatedTo
  {
  }

  /** After clearing, no token can be read, from either store, and clearing
      again changes nothing. */
  lemma ClearThenGet(b: BrowserState)
    ensures b.Cleared().Token() == None
    ensures b.hasWindow ==> b.Cleared().cookie == None && b.Cleared().local == None
    ensures b.Cleared().Cleared() == b.Cleared()
  {
  }

  /** Outside a browser nothing is read and nothing is written. */
  lemma NoWindow(b: BrowserState, token: string)
    requires !b.hasWindow
    ensures b.Token() == None && b.Stored(token) == b && b.Cleared() == b
  {
  }

  /** The cookie wins whenever it holds a non-empty value, even when the local
      store holds a different token: the two stores are not reconciled. */
  lemma CookiePreferred(b: BrowserState)
    requires b.hasWindow && Present(b.cookie)
    ensures b.Token() == b.cookie
  {
  }

  class Browser {
    var hasWindow: bool
    var cookie: Option<string>
    var local: Option<string>
    var pathname: string
    var navigatedTo: Option<string>

    function Snapshot(): BrowserState
      reads this
    {
      BrowserState(hasWindow, cookie, local, pathname, navigatedTo)
    }

    constructor (hasWindow: bool, cookie: Option<string>, local: Option<string>, pathname: string)
      ensures Snapshot() == BrowserState(hasWindow, cookie, local, pathname, None)
    {
      this.hasWindow := hasWindow;
      this.cookie := cookie;
      this.local := local;
      this.pathname := pathname;
      navigatedTo := None;
    }

    /** `ApiClient.getToken()` */
    function GetToken(): Option<string>
      reads this
    {
      Snapshot().Token()
    }

    /** `ApiClient.setToken(token)`: writes both stores; outside a browser it
        does nothing. */
    method SetToken(token: string)
      modifies this
      ensures Snapshot() == old(Snapshot()).Stored(token)
      ensures GetToken() == if hasWindow then Some(token) else None
    {
      if !hasWindow {
        return;
      }
      cookie := Some(token);
      local := Some(token);
    }

    /** `ApiClient.clearToken()`: empties both stores; outside a browser it
        does nothing. */
    method ClearToken()
      modifies this
      ensures Snapshot() == old(Snapshot()).Cleared()
      ensures GetToken() == None
    {
      if !hasWindow {
        return;
      }
      cookie := None;
      local := None;
    }

    /** `window.location.href = path` */
    method Navigate(path: string)
      modifies this
      ensures Snapshot() == old(Snapshot()).(navigatedTo := Some(path))
    {
      navigatedTo := Some(path);
    }
  }
}
