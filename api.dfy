/**
 * The request layer: the axios client's two interceptors (attach the bearer
 * token; on a 401 clear the token and send the browser to the login page),
 * the mock handlers that map a path to a mock endpoint, and `fetchWithAuth`,
 * which routes each call either to the mock handlers or to the real client.
 *
 * The real backend is not part of this model: what it answers to a request
 * is a parameter (`reply`). The transport itself (base URL, timeout) is left
 * out.
 */
module Api {
  import opened Types
  import opened Strings
  import opened TokenStore
  import opened MockApi

  /* ---------------------------------------------------------------- routing */

  datatype Verb = HttpGet | HttpPost | HttpPut | HttpPatch | HttpDelete

  /** Where `fetchWithAuth` sends a call. */
  datatype Target = AuthHandler | GetHandler | RealClient

  function Route(mockMode: bool, verb: Verb, url: string): Target {
    if !mockMode then RealClient
    else match verb
      case HttpGet => GetHandler
      case HttpPost => if StartsWith(url, "/auth/") || url == "/user" then AuthHandler else GetHandler
      case HttpPut => RealClient
      case HttpPatch => RealClient
      case HttpDelete => RealClient
  }

  /** Outside mock mode every call goes to the real client; in mock mode a
      `get` always goes to the read handler, a `post` to the auth handler
      exactly for "/auth/..." paths and "/user" (to the read handler
      otherwise), and `put`, `patch` and `delete` are never mocked. */
  lemma RouteSpec(mockMode: bool, verb: Verb, url: string)
    ensures !mockMode ==> Route(mockMode, verb, url) == RealClient
    ensures mockMode && verb == HttpGet ==> Route(mockMode, verb, url) == GetHandler
    ensures mockMode && verb == HttpPost ==>
      (Route(mockMode, verb, url) == AuthHandler <==> StartsWith(url, "/auth/") || url == "/user")
    ensures mockMode && verb == HttpPost ==> Route(mockMode, verb, url) != RealClient
    ensures verb in {HttpPut, HttpPatch, HttpDelete} ==> Route(mockMode, verb, url) == RealClient
  {
  }

  /** The endpoints `handleAuth` knows. */
  datatype AuthRoute = AuthLogin | AuthRegister | AuthLogout | AuthUser

  /** The endpoints `handleGet` knows. */
  datatype ReadRoute = ReadStats | ReadProjects | ReadClients | ReadDocuments | ReadUser

  function AuthPath(a: AuthRoute): string {
    match a
    case AuthLogin => "/auth/login"
    case AuthRegister => "/auth/register"
    case AuthLogout => "/auth/logout"
    case AuthUser => "/user"
  }

  function ReadPath(r: ReadRoute): string {
    match r
    case ReadStats => "/dashboard/stats"
    case ReadProjects => "/projects"
    case ReadClients => "/clients"
    case ReadDocuments => "/documents"
    case ReadUser => "/user"
  }

  /** `handleAuth`'s chain of exact path comparisons. */
  function AuthRouteOf(url: string): Option<AuthRoute> {
    if url == "/auth/login" then Some(AuthLogin)
    else if url == "/auth/register" then Some(AuthRegister)
    else if url == "/auth/logout" then Some(AuthLogout)
    else if url == "/user" then Some(AuthUser)
    else None
  }

  /** `handleGet`'s chain of exact path comparisons. */
  function ReadRouteOf(url: string): Option<ReadRoute> {
    if url == "/dashboard/stats" then Some(ReadStats)
    else if url == "/projects" then Some(ReadProjects)
    else if url == "/clients" then Some(ReadClients)
    else if url == "/documents" then Some(ReadDocuments)
    else if url == "/user" then Some(ReadUser)
    else None
  }

  /** Each known path selects exactly one endpoint, and only its own path does. */
  lemma AuthRouteExact(url: string, a: AuthRoute)
    ensures AuthRouteOf(url) == Some(a) <==> url == AuthPath(a)
  {
  }

  lemma ReadRouteExact(url: string, r: ReadRoute)
    ensures ReadRouteOf(url) == Some(r) <==> url == ReadPath(r)
  {
  }

  /** Every path `handleAuth` knows is one `post` routes to it. */
  lemma AuthPathsReachAuthHandler(a: AuthRoute)
    ensures Route(true, HttpPost, AuthPath(a)) == AuthHandler
  {
    match a
    case AuthLogin => assert AuthPath(a) == "/auth/" + "login";
    case AuthRegister => assert AuthPath(a) == "/auth/" + "register";
    case AuthLogout => assert AuthPath(a) == "/auth/" + "logout";
    case AuthUser =>
  }

  /* ------------------------------------------------------------ mock results */

  /** `response.data` of a call: the body the handlers wrap in `{ data: ... }`. */
  datatype Payload =
    | AuthData(auth: AuthResponse)
    | UserData(user: User)
    | StatsData(stats: DashboardStats)
    | ProjectData(projects: seq<Project>)
    | ClientData(clients: seq<Client>)
    | DocumentData(documents: seq<Document>)
    | EmptyData

  function AuthReply(r: Result<AuthResponse>): Result<Payload> {
    match r
    case Success(a) => Success(AuthData(a))
    case Failure(e) => Failure(e)
  }

  function UserReply(r: Result<User>): Result<Payload> {
    match r
    case Success(u) => Success(UserData(u))
    case Failure(e) => Failure(e)
  }

  function StatsReply(r: Result<DashboardStats>): Result<Payload> {
    match r
    case Success(st) => Success(StatsData(st))
    case Failure(e) => Failure(e)
  }

  function ProjectsReply(r: Result<seq<Project>>): Result<Payload> {
    match r
    case Success(ps) => Success(ProjectData(ps))
    case Failure(e) => Failure(e)
  }

  function ClientsReply(r: Result<seq<Client>>): Result<Payload> {
    match r
    case Success(cs) => Success(ClientData(cs))
    case Failure(e) => Failure(e)
  }

  function DocumentsReply(r: Result<seq<Document>>): Result<Payload> {
    match r
    case Success(ds) => Success(DocumentData(ds))
    case Failure(e) => Failure(e)
  }

  /** The request body: absent, or one of the two credential records. */
  datatype Body = NoBody | LoginBody(login: LoginCredentials) | RegisterBody(register: RegisterCredentials)

  /** `throw new Error(`Mock endpoint not implemented: ${endpoint}`)` */
  function NotImplemented(url: string): ApiError {
    ApiError("Mock endpoint not implemented: " + url, None)
  }

  /** The `TypeError` JavaScript throws on reading a property of `undefined`. */
  function TypeErrorReading(field: string): ApiError {
    ApiError("Cannot read properties of undefined (reading '" + field + "')", None)
  }

  /** `mockApi.login(data)`: the mock reads `email` and `password` from
      whatever was posted. */
  function MockLogin(s: MockState, body: Body, now: nat): (MockState, Result<Payload>)
    requires |s.users| > 0
  {
    match body
    case NoBody => (s, Failure(TypeErrorReading("email")))
    case LoginBody(c) =>
      var (t, r) := LoginStep(s, c, now); (t, AuthReply(r))
    case RegisterBody(c) =>
      var (t, r) := LoginStep(s, LoginCredentials(c.email, c.password), now); (t, AuthReply(r))
  }

  /** `mockApi.register(data)`: a login body has no `password_confirmation`,
      which never equals its password. */
  function MockRegister(s: MockState, body: Body, clock: Clock): (MockState, Result<Payload>)
  {
    match body
    case NoBody => (s, Failure(TypeErrorReading("password")))
    case LoginBody(_) => (s, Failure(PasswordMismatch))
    case RegisterBody(c) =>
      var (t, r) := RegisterStep(s, c, clock); (t, AuthReply(r))
  }

  /** `mockHandlers.handleAuth(url, body)`, given the persisted token. */
  function MockHandleAuth(s: MockState, url: string, body: Body, persisted: Option<string>, clock: Clock)
    : (MockState, Result<Payload>)
    requires |s.users| > 0
  {
    match AuthRouteOf(url)
    case None => (s, Failure(NotImplemented(url)))
    case Some(AuthLogin) => MockLogin(s, body, clock.now)
    case Some(AuthRegister) => MockRegister(s, body, clock)
    case Some(AuthLogout) => (LogoutStep(s), Success(EmptyData))
    case Some(AuthUser) =>
      var (t, r) := GetUserStep(s, persisted); (t, UserReply(r))
  }

  /** `mockHandlers.handleGet(url)`, given the persisted token. */
  function MockHandleGet(s: MockState, url: string, persisted: Option<string>, at: string)
    : (MockState, Result<Payload>)
    requires |s.users| > 0
  {
    match ReadRouteOf(url)
    case None => (s, Failure(NotImplemented(url)))
    case Some(ReadStats) =>
      var (t, r) := GuardedRead(s, persisted, SeedStats(at)); (t, StatsReply(r))
    case Some(ReadProjects) =>
      var (t, r) := GuardedRead(s, persisted, SeedProjects(at)); (t, ProjectsReply(r))
    case Some(ReadClients) =>
      var (t, r) := GuardedRead(s, persisted, ClientsOf(SeedProjects(at))); (t, ClientsReply(r))
    case Some(ReadDocuments) =>
      var (t, r) := GuardedRead(s, persisted, SeedDocuments(at)); (t, DocumentsReply(r))
    case Some(ReadUser) =>
      var (t, r) := GetUserStep(s, persisted); (t, UserReply(r))
  }

  /** What `fetchWithAuth.get(url)` does to the mock state and what it answers. */
  function FetchGet(mockMode: bool, url: string, s: MockState, persisted: Option<string>, at: string,
                    reply: Result<Payload>): (MockState, Result<Payload>)
    requires |s.users| > 0
  {
    if Route(mockMode, HttpGet, url) == RealClient then (s, reply)
    else MockHandleGet(s, url, persisted, at)
  }

  /** What `fetchWithAuth.post(url, body)` does to the mock state and what it answers. */
  function FetchPost(mockMode: bool, url: string, body: Body, s: MockState, persisted: Option<string>,
                     clock: Clock, at: string, reply: Result<Payload>): (MockState, Result<Payload>)
    requires |s.users| > 0
  {
    match Route(mockMode, HttpPost, url)
    case GetHandler => MockHandleGet(s, url, persisted, at)
    case AuthHandler => MockHandleAuth(s, url, body, persisted, clock)
    case RealClient => (s, reply)
  }

  /** The read handler keeps the mock state's invariant. */
  lemma MockHandleGetKeepsValid(s: MockState, url: string, persisted: Option<string>, at: string)
    requires ValidState(s, at)
    ensures ValidState(MockHandleGet(s, url, persisted, at).0, at)
  {
    GuardSpec(s, persisted, at);
    if url == "/user" {
      GetUserSpec(s, persisted, at);
    }
  }

  /** The auth handler keeps the mock state's invariant. */
  lemma MockHandleAuthKeepsValid(s: MockState, url: string, body: Body, persisted: Option<string>,
                                 clock: Clock, at: string)
    requires ValidState(s, at)
    ensures ValidState(MockHandleAuth(s, url, body, persisted, clock).0, at)
  {
    match AuthRouteOf(url)
    case None =>
    case Some(AuthLogin) =>
      match body {
        case NoBody =>
        case LoginBody(c) => LoginSpec(s, c, clock.now, at);
        case RegisterBody(c) => LoginSpec(s, LoginCredentials(c.email, c.password), clock.now, at);
      }
    case Some(AuthRegister) =>
      if body.RegisterBody? {
        RegisterSpec(s, body.register, clock, at);
      }
    case Some(AuthLogout) => LogoutSpec(s, at);
    case Some(AuthUser) => GetUserSpec(s, persisted, at);
  }

  /** Every `get` and `post`, mocked or not, keeps the mock state's invariant. */
  lemma FetchKeepsValid(mockMode: bool, url: string, body: Body, s: MockState, persisted: Option<string>,
                        clock: Clock, at: string, reply: Result<Payload>)
    requires ValidState(s, at)
    ensures ValidState(FetchGet(mockMode, url, s, persisted, at, reply).0, at)
    ensures ValidState(FetchPost(mockMode, url, body, s, persisted, clock, at, reply).0, at)
  {
    MockHandleGetKeepsValid(s, url, persisted, at);
    MockHandleAuthKeepsValid(s, url, body, persisted, clock, at);
  }

  /** An unknown path in mock mode fails with the "not implemented" message
      naming the path, and touches no state. */
  lemma UnknownMockPath(url: string, body: Body, s: MockState, persisted: Option<string>, clock: Clock,
                        at: string, reply: Result<Payload>)
    requires |s.users| > 0
    requires ReadRouteOf(url) == None && AuthRouteOf(url) == None
    ensures FetchGet(true, url, s, persisted, at, reply) == (s, Failure(NotImplemented(url)))
    ensures FetchPost(true, url, body, s, persisted, clock, at, reply) == (s, Failure(NotImplemented(url)))
    ensures StartsWith(NotImplemented(url).message, "Mock endpoint not implemented: ")
  {
  }

  /** In mock mode a `post` outside "/auth/" is answered as the `get` of the
      same path: the body is ignored and nothing is written. */
  lemma MockPostOutsideAuthIsRead(url: string, body: Body, s: MockState, persisted: Option<string>,
                                  clock: Clock, at: string, reply: Result<Payload>)
    requires |s.users| > 0
    requires !StartsWith(url, "/auth/") && url != "/user"
    ensures FetchPost(true, url, body, s, persisted, clock, at, reply) == FetchGet(true, url, s, persisted, at, reply)
  {
  }

  /* ------------------------------------------------------------ interceptors */

  type Headers = map<string, string>

  const DefaultHeaders: Headers := map["Content-Type" := "application/json", "Accept" := "application/json"]

  const LoginPage := "/auth/login"

  /** The request interceptor: `Authorization: Bearer <token>` is set exactly
      when a token is present; every other header is left as it was. */
  function Authorize(h: Headers, token: Option<string>): (r: Headers)
    ensures Present(token) ==> "Authorization" in r && r["Authorization"] == "Bearer " + token.value
    ensures Present(token) ==> r.Keys == h.Keys + {"Authorization"}
    ensures !Present(token) ==> r == h
    ensures forall k :: k in h && k != "Authorization" ==> k in r && r[k] == h[k]
  {
    if Present(token) then h["Authorization" := "Bearer " + token.value] else h
  }

  /** The response interceptor's effect on the browser once the server has
      answered `reply`. */
  function AfterReply(b: BrowserState, reply: Result<Payload>): BrowserState {
    if reply.Failure? && Is401(reply.error) then
      var c := b.Cleared();
      if c.hasWindow && !Contains(c.pathname, "/auth") then c.(navigatedTo := Some(LoginPage)) else c
    else b
  }

  /** A 401 clears the token; the browser is sent to the login page exactly
      when there is a window and the current path does not contain "/auth";
      any other answer changes nothing. */
  lemma AfterReplySpec(b: BrowserState, reply: Result<Payload>)
    ensures var a := AfterReply(b, reply);
      && a.hasWindow == b.hasWindow && a.pathname == b.pathname
      && (reply.Failure? && Is401(reply.error) ==> a.Token() == None && a.cookie == b.Cleared().cookie && a.local == b.Cleared().local)
      && (reply.Failure? && Is401(reply.error) && b.hasWindow && !Contains(b.pathname, "/auth") ==>
            a.navigatedTo == Some(LoginPage))
      && (!(reply.Failure? && Is401(reply.error) && b.hasWindow && !Contains(b.pathname, "/auth")) ==>
            a.navigatedTo == b.navigatedTo)
      && (!(reply.Failure? && Is401(reply.error)) ==> a == b)
  {
  }

  /** The login page is itself an auth path, so a 401 received there never
      redirects again. */
  lemma NoRedirectFromLoginPage(b: BrowserState, reply: Result<Payload>)
    requires b.pathname == LoginPage
    ensures AfterReply(b, reply).navigatedTo == b.navigatedTo
  {
    assert StartsWith(LoginPage, "/auth");
  }

  /** The browser after a call through `fetchWithAuth`: only the real client
      runs the interceptors. */
  function BrowserAfter(mockMode: bool, verb: Verb, url: string, b: BrowserState, reply: Result<Payload>): BrowserState {
    if Route(mockMode, verb, url) == RealClient then AfterReply(b, reply) else b
  }

  /* --------------------------------------------------------- fetchWithAuth */

  /** The `fetchWithAuth` object: the browser, the mock backend, and the mock
      mode flag (`shouldUseMockApi()`, fixed by the environment). */
  class Fetcher {
    const browser: Browser
    const backend: MockBackend
    const mockMode: bool

    predicate Valid()
      reads backend
    {
      backend.Valid()
    }

    constructor (browser: Browser, backend: MockBackend, mockMode: bool)
      requires backend.Valid()
      ensures this.browser == browser && this.backend == backend && this.mockMode == mockMode
      ensures Valid()
    {
      this.browser := browser;
      this.backend := backend;
      this.mockMode := mockMode;
    }

    /** A request through the axios client, whose server answers `reply`. */
    method Send(reply: Result<Payload>) returns (r: Result<Payload>, sent: Headers)
      modifies browser
      ensures sent == Authorize(DefaultHeaders, old(browser.GetToken()))
      ensures r == reply
      ensures browser.Snapshot() == AfterReply(old(browser.Snapshot()), reply)
    {
      // request interceptor
      var token := browser.GetToken();
      sent := DefaultHeaders;
      if token.Some? && token.value != "" {
        sent := sent["Authorization" := "Bearer " + token.value];
      }
      r := reply;
      // response interceptor
      if reply.Failure? && reply.error.response.Some? && reply.error.response.value.status == Some(401) {
        browser.ClearToken();
        if browser.hasWindow && !Contains(browser.pathname, "/auth") {
          browser.Navigate(LoginPage);
        }
      }
    }

    /** `mockHandlers.handleAuth(url, body)` */
    method HandleAuth(url: string, body: Body, clock: Clock) returns (r: Result<Payload>)
      requires Valid()
      modifies backend
      ensures Valid()
      ensures (backend.State(), r) == MockHandleAuth(old(backend.State()), url, body, browser.GetToken(), clock)
    {
      if url == "/auth/login" {
        match body {
          case NoBody =>
            r := Failure(TypeErrorReading("email"));
          case LoginBody(c) =>
            var x := backend.Login(c, clock.now);
            r := AuthReply(x);
          case RegisterBody(c) =>
            var x := backend.Login(LoginCredentials(c.email, c.password), clock.now);
            r := AuthReply(x);
        }
      } else if url == "/auth/register" {
        match body {
          case NoBody =>
            r := Failure(TypeErrorReading("password"));
          case LoginBody(_) =>
            r := Failure(PasswordMismatch);
          case RegisterBody(c) =>
            var x := backend.Register(c, clock);
            r := AuthReply(x);
        }
      } else if url == "/auth/logout" {
        backend.Logout();
        r := Success(EmptyData);
      } else if url == "/user" {
        var x := backend.GetUser(browser);
        r := UserReply(x);
      } else {
        r := Failure(NotImplemented(url));
      }
    }

    /** `mockHandlers.handleGet(url)` */
    method HandleGet(url: string) returns (r: Result<Payload>)
      requires Valid()
      modifies backend
      ensures Valid()
      ensures (backend.State(), r) == MockHandleGet(old(backend.State()), url, browser.GetToken(), backend.loadedAt)
    {
      if url == "/dashboard/stats" {
        var x := backend.GetDashboardStats(browser);
        r := StatsReply(x);
      } else if url == "/projects" {
        var x := backend.GetProjects(browser);
        r := ProjectsReply(x);
      } else if url == "/clients" {
        var x := backend.GetClients(browser);
        r := ClientsReply(x);
      } else if url == "/documents" {
        var x := backend.GetDocuments(browser);
        r := DocumentsReply(x);
      } else if url == "/user" {
        var x := backend.GetUser(browser);
        r := UserReply(x);
      } else {
        r := Failure(NotImplemented(url));
      }
    }

    /** `fetchWithAuth.get(url)`; `sent` is the header set of a real request. */
    method Get(url: string, reply: Result<Payload>) returns (r: Result<Payload>, sent: Option<Headers>)
      requires Valid()
      modifies browser, backend
      ensures Valid()
      ensures (backend.State(), r)
           == FetchGet(mockMode, url, old(backend.State()), old(browser.GetToken()), backend.loadedAt, reply)
      ensures browser.Snapshot() == BrowserAfter(mockMode, HttpGet, url, old(browser.Snapshot()), reply)
      ensures sent.Some? <==> Route(mockMode, HttpGet, url) == RealClient
      ensures sent.Some? ==> sent.value == Authorize(DefaultHeaders, old(browser.GetToken()))
    {
      if mockMode {
        r := HandleGet(url);
        sent := None;
        return;
      }
      var h;
      r, h := Send(reply);
      sent := Some(h);
    }

    /** `fetchWithAuth.post(url, body)` */
    method Post(url: string, body: Body, clock: Clock, reply: Result<Payload>) returns (r: Result<Payload>, sent: Option<Headers>)
      requires Valid()
      modifies browser, backend
      ensures Valid()
      ensures (backend.State(), r)
           == FetchPost(mockMode, url, body, old(backend.State()), old(browser.GetToken()), clock, backend.loadedAt, reply)
      ensures browser.Snapshot() == BrowserAfter(mockMode, HttpPost, url, old(browser.Snapshot()), reply)
      ensures sent.Some? <==> Route(mockMode, HttpPost, url) == RealClient
      ensures sent.Some? ==> sent.value == Authorize(DefaultHeaders, old(browser.GetToken()))
    {
      if mockMode {
        if StartsWith(url, "/auth/") || url == "/user" {
          r := HandleAuth(url, body, clock);
        } else {
          r := HandleGet(url);
        }
        sent := None;
        return;
      }
      var h;
      r, h := Send(reply);
      sent := Some(h);
    }

    /** `fetchWithAuth.put`, `.patch` and `.delete`: never mocked. */
    method Put(url: string, reply: Result<Payload>) returns (r: Result<Payload>, sent: Headers)
      modifies browser
      ensures Route(mockMode, HttpPut, url) == RealClient
      ensures r == reply && sent == Authorize(DefaultHeaders, old(browser.GetToken()))
      ensures browser.Snapshot() == AfterReply(old(browser.Snapshot()), reply)
    {
      r, sent := Send(reply);
    }

    method Patch(url: string, reply: Result<Payload>) returns (r: Result<Payload>, sent: Headers)
      modifies browser
      ensures Route(mockMode, HttpPatch, url) == RealClient
      ensures r == reply && sent == Authorize(DefaultHeaders, old(browser.GetToken()))
      ensures browser.Snapshot() == AfterReply(old(browser.Snapshot()), reply)
    {
      r, sent := Send(reply);
    }

    method Delete(url: string, reply: Result<Payload>) returns (r: Result<Payload>, sent: Headers)
      modifies browser
      ensures Route(mockMode, HttpDelete, url) == RealClient
      ensures r == reply && sent == Authorize(DefaultHeaders, old(browser.GetToken()))
      ensures browser.Snapshot() == AfterReply(old(browser.Snapshot()), reply)
    {
      r, sent := Send(reply);
    }
  }
}
