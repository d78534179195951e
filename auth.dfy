/**
 * The session manager: the current `user` and the `isLoading` flag, driven
 * by `checkAuth`, `login`, `register` and `logout`, each of which runs to
 * completion through `fetchWithAuth`. A rethrown error is the `thrown`
 * out-parameter. React state plumbing and the `useAuth` provider check are
 * not modelled.
 */
module Auth {
  import opened Types
  import opened Strings
  import opened TokenStore
  import opened MockApi
  import opened Api

  class AuthProvider {
    const api: Fetcher
    var user: Option<User>
    var isLoading: bool

    /** `useState(null)`, `useState(true)` */
    constructor (api: Fetcher)
      ensures this.api == api && user == None && isLoading
    {
      this.api := api;
      user := None;
      isLoading := true;
    }

    /** `checkAuth()`; `reply` is what a real server answers to GET /user. */
    method CheckAuth(reply: Result<User>)
      requires api.Valid()
      modifies this, api.browser, api.backend
      ensures api.Valid() && !isLoading
      ensures !Present(old(api.browser.GetToken())) ==>
        user == old(user) && unchanged(api.browser) && unchanged(api.backend)
      ensures Present(old(api.browser.GetToken())) ==>
        var (s, r) := FetchGet(api.mockMode, "/user", old(api.backend.State()), old(api.browser.GetToken()),
                               api.backend.loadedAt, UserReply(reply));
        var b := BrowserAfter(api.mockMode, HttpGet, "/user", old(api.browser.Snapshot()), UserReply(reply));
        && api.backend.State() == s
        && (r.Success? ==> r.value.UserData? && user == Some(r.value.user) && api.browser.Snapshot() == b)
        && (r.Failure? ==> user == None && api.browser.Snapshot() == b.Cleared() && api.browser.GetToken() == None)
    {
      var token := api.browser.GetToken();
      if token.None? || token.value == "" {
        isLoading := false;
        return;
      }
      var r, _ := api.Get("/user", UserReply(reply));
      match r {
        case Success(p) =>
          assert p.UserData?;
          user := Some(p.user);
        case Failure(_) =>
          api.browser.ClearToken();
          user := None;
      }
      isLoading := false;
    }

    /** `login(credentials)`; `reply` is what a real server answers to
        POST /auth/login, and `clock` what the mock reads from the clock. */
    method Login(c: LoginCredentials, clock: Clock, reply: Result<AuthResponse>) returns (thrown: Option<ApiError>)
      requires api.Valid()
      modifies this, api.browser, api.backend
      ensures api.Valid() && !isLoading
      ensures
        var (s, r) := FetchPost(api.mockMode, "/auth/login", LoginBody(c), old(api.backend.State()),
                                old(api.browser.GetToken()), clock, api.backend.loadedAt, AuthReply(reply));
        var b := BrowserAfter(api.mockMode, HttpPost, "/auth/login", old(api.browser.Snapshot()), AuthReply(reply));
        && api.backend.State() == s
        && (r.Success? ==>
              && r.value.AuthData? && thrown == None && user == Some(r.value.auth.user)
              && api.browser.Snapshot() == b.Stored(r.value.auth.token))
        && (r.Failure? ==> thrown == Some(r.error) && user == old(user) && api.browser.Snapshot() == b)
    {
      isLoading := true;
      var r, _ := api.Post("/auth/login", LoginBody(c), clock, AuthReply(reply));
      match r {
        case Success(p) =>
          assert p.AuthData?;
          api.browser.SetToken(p.auth.token);
          user := Some(p.auth.user);
          thrown := None;
        case Failure(e) =>
          thrown := Some(e);
      }
      isLoading := false;
    }

    /** `register(credentials)`; `reply` is what a real server answers to
        POST /auth/register. */
    method Register(c: RegisterCredentials, clock: Clock, reply: Result<AuthResponse>) returns (thrown: Option<ApiError>)
      requires api.Valid()
      modifies this, api.browser, api.backend
      ensures api.Valid() && !isLoading
      ensures
        var (s, r) := FetchPost(api.mockMode, "/auth/register", RegisterBody(c), old(api.backend.State()),
                                old(api.browser.GetToken()), clock, api.backend.loadedAt, AuthReply(reply));
        var b := BrowserAfter(api.mockMode, HttpPost, "/auth/register", old(api.browser.Snapshot()), AuthReply(reply));
        && api.backend.State() == s
        && (r.Success? ==>
              && r.value.AuthData? && thrown == None && user == Some(r.value.auth.user)
              && api.browser.Snapshot() == b.Stored(r.value.auth.token))
        && (r.Failure? ==> thrown == Some(r.error) && user == old(user) && api.browser.Snapshot() == b)
    {
      isLoading := true;
      var r, _ := api.Post("/auth/register", RegisterBody(c), clock, AuthReply(reply));
      match r {
        case Success(p) =>
          assert p.AuthData?;
          api.browser.SetToken(p.auth.token);
          user := Some(p.auth.user);
          thrown := None;
        case Failure(e) =>
          thrown := Some(e);
      }
      isLoading := false;
    }

    /** `logout()`: the remote call's failure is swallowed; the local session
        is always cleared. `reply` is what a real server answers. */
    method Logout(reply: Result<Payload>)
      requires api.Valid()
      modifies this, api.browser, api.backend
      ensures api.Valid()
      ensures user == None && api.browser.GetToken() == None && isLoading == old(isLoading)
      ensures
        var (s, _) := FetchPost(api.mockMode, "/auth/logout", NoBody, old(api.backend.State()),
                                old(api.browser.GetToken()), LogoutClock, api.backend.loadedAt, reply);
        && api.backend.State() == s
        && api.browser.Snapshot()
           == BrowserAfter(api.mockMode, HttpPost, "/auth/logout", old(api.browser.Snapshot()), reply).Cleared()
    {
      var _, _ := api.Post("/auth/logout", NoBody, LogoutClock, reply);
      api.browser.ClearToken();
      user := None;
    }
  }

  /** Logging out reads no clock; any reading serves. */
  const LogoutClock := Clock(0, "")

  /** In mock mode, a login with the fixed credentials stores a token that
      `checkAuth` then finds, and the "/user" call it makes answers the seeded
      user, whatever the remote server would have said. */
  lemma MockLoginThenCheckAuth(s: MockState, b: BrowserState, clock: Clock, at: string,
                               reply: Result<Payload>, reply': Result<Payload>)
    requires ValidState(s, at) && b.hasWindow
    ensures
      var (t, r) := FetchPost(true, "/auth/login", LoginBody(LoginCredentials(AdminEmail, AdminPassword)),
                              s, b.Token(), clock, at, reply);
      && r.Success? && r.value.AuthData? && r.value.auth.user == SeedUser(at)
      && var b' := BrowserAfter(true, HttpPost, "/auth/login", b, reply).Stored(r.value.auth.token);
         && Present(b'.Token())
         && FetchGet(true, "/user", t, b'.Token(), at, reply').1 == Success(UserData(SeedUser(at)))
  {
    var c := LoginCredentials(AdminEmail, AdminPassword);
    LoginSpec(s, c, clock.now, at);
    MockTokenShape(clock.now, clock.now);
    var (t, _) := LoginStep(s, c, clock.now);
    GetUserSpec(t, Some(MockToken(clock.now)), at);
  }

  /** In mock mode, after `logout` neither store holds a token, so `checkAuth`
      makes no call, and a guarded read fails with "Unauthenticated.": the
      session cannot be restored. */
  lemma MockLogoutEndsSession(s: MockState, b: BrowserState, at: string,
                                                 reply: Result<Payload>, reply': Result<Payload>)
    requires ValidState(s, at)
    ensures
      var (t, _) := FetchPost(true, "/auth/logout", NoBody, s, b.Token(), LogoutClock, at, reply);
      var b' := BrowserAfter(true, HttpPost, "/auth/logout", b, reply).Cleared();
      && b'.Token() == None
      && FetchGet(true, "/projects", t, b'.Token(), at, reply') == (t, Failure(Unauthenticated))
  {
    assert StartsWith("/auth/logout", "/auth/");
    LogoutSpec(s, at);
  }
}
