/**
 * The in-memory stand-in for the backend: one fixed credential pair, a
 * growable user list seeded with one user, and a session held in two
 * module-level variables (`currentToken`, `currentUser`). Every read endpoint
 * is guarded by `isAuthenticated`, which may restore a session from a token
 * left in the browser's stores.
 *
 * `MockState` and the step functions below are the specification; the class
 * `MockBackend` is the module state and its methods the endpoints, each
 * proved to perform exactly its step. Simulated latency is not modelled.
 */
module MockApi {
  import opened Types
  import opened Strings
  import opened TokenStore

  const TokenPrefix := "mock-jwt-token-"
  const AdminEmail := "admin@cheqqme.com"
  const AdminPassword := "password"

  /** An `Error` whose `response.data.message` is set, as the mock throws it. */
  function MockError(reason: string, message: string): ApiError {
    ApiError(reason, Some(ErrorResponse(None, Some(message))))
  }

  const BadCredentials := MockError("Invalid credentials", "The provided credentials are incorrect.")
  const PasswordMismatch := MockError("Passwords do not match", "The password confirmation does not match.")
  const EmailTaken := MockError("Email already exists", "The email has already been taken.")
  const Unauthenticated := MockError("Unauthorized", "Unauthenticated.")
  const UserNotFound := MockError("User not found", "User not found.")

  /* Seed data; `at` is the time the module was loaded. */

  function SeedUser(at: string): User {
    User(1, "John Doe", "john@cheqqme.com", Some(at), at, at)
  }

  function SeedProjects(at: string): seq<Project> {
    [ Project(1, "Website Redesign", Some("Complete overhaul of company website"), 1,
              Client(1, "Acme Corp", Some("contact@acme.com"), None, None, at, at),
              "active", at, at),
      Project(2, "Mobile App Development", Some("Native iOS and Android app"), 2,
              Client(2, "Tech Solutions Inc", Some("hello@techsolutions.com"), None, None, at, at),
              "active", at, at) ]
  }

  function SeedDocuments(at: string): seq<Document> {
    var p := SeedProjects(at)[0];
    [ Document(1, "Project Requirements.pdf", "/documents/requirements.pdf", 2048000,
               "application/pdf", Some(1), Some(1), Some(p), Some(p.client), at, at) ]
  }

  function SeedStats(at: string): DashboardStats {
    DashboardStats(15, 8, 42, SeedDocuments(at))
  }

  /** `projects.map(p => p.client)` */
  function ClientsOf(ps: seq<Project>): (cs: seq<Client>)
    ensures |cs| == |ps|
    ensures forall i :: 0 <= i < |ps| ==> cs[i] == ps[i].client
  {
    if ps == [] then [] else [ps[0].client] + ClientsOf(ps[1..])
  }

  /** `"mock-jwt-token-" + Date.now()` */
  function MockToken(now: nat): string {
    TokenPrefix + NatToString(now)
  }

  /** Issued tokens carry the mock prefix, and distinct clock readings give distinct tokens. */
  lemma MockTokenShape(m: nat, n: nat)
    ensures StartsWith(MockToken(n), TokenPrefix) && MockToken(n) != ""
    ensures MockToken(m) == MockToken(n) ==> m == n
  {
    if MockToken(m) == MockToken(n) {
      assert NatToString(m) == MockToken(m)[|TokenPrefix|..];
      assert NatToString(n) == MockToken(n)[|TokenPrefix|..];
      NatToStringInjective(m, n);
    }
  }

  /** The module state: `currentToken`, `currentUser`, `mockUsers`. */
  datatype MockState = MockState(token: Option<string>, user: Option<User>, users: seq<User>)

  function Initial(at: string): MockState {
    MockState(None, None, [SeedUser(at)])
  }

  /** `mockUsers.some(user => user.email === email)` */
  predicate HasEmail(users: seq<User>, email: string) {
    exists i :: 0 <= i < |users| && users[i].email == email
  }

  /** What every reachable state satisfies: the seed user stays first, each
      user's id is its 1-based position, emails are distinct, a session holds
      a token and a user together, its token has the mock prefix and its user
      is a registered one. */
  predicate ValidState(s: MockState, at: string) {
    && |s.users| > 0
    && s.users[0] == SeedUser(at)
    && (forall i :: 0 <= i < |s.users| ==> s.users[i].id == i + 1)
    && (forall i, j :: 0 <= i < j < |s.users| ==> s.users[i].email != s.users[j].email)
    && (s.token.Some? <==> s.user.Some?)
    && (s.token.Some? ==> StartsWith(s.token.value, TokenPrefix))
    && (s.user.Some? ==> s.user.value in s.users)
  }

  /** The session held in memory (`currentToken && currentUser`). */
  predicate InMemory(s: MockState) {
    Present(s.token) && s.user.Some?
  }

  /** A persisted token from which `isAuthenticated` restores a session. */
  predicate Restorable(persisted: Option<string>) {
    Present(persisted) && StartsWith(persisted.value, TokenPrefix)
  }

  /** `isAuthenticated()`, given the token the browser's stores hold
      (`persisted`, null outside a browser): the new state and the answer. */
  function Guard(s: MockState, persisted: Option<string>): (MockState, bool)
    requires |s.users| > 0
  {
    if InMemory(s) then (s, true)
    else if Restorable(persisted) then (s.(token := persisted, user := Some(s.users[0])), true)
    else (s, false)
  }

  /** `isAuthenticated` answers yes exactly when memory holds a session or a
      mock token is persisted; a restored session is the first user's, and a
      session that exists is never changed. */
  lemma GuardSpec(s: MockState, persisted: Option<string>, at: string)
    requires ValidState(s, at)
    ensures var (t, ok) := Guard(s, persisted);
      && (ok <==> InMemory(s) || Restorable(persisted))
      && t.users == s.users
      && (InMemory(s) || !ok ==> t == s)
      && (!InMemory(s) && ok ==> t.token == persisted && t.user == Some(SeedUser(at)))
      && (ok ==> InMemory(t))
      && ValidState(t, at)
  {
  }

  /** `getCurrentUser()` */
  function CurrentUserStep(s: MockState, persisted: Option<string>): (MockState, Option<User>)
    requires |s.users| > 0
  {
    if s.user.Some? then (s, s.user)
    else
      var (t, ok) := Guard(s, persisted);
      (t, if ok then Some(s.users[0]) else None)
  }

  /** `login(credentials)` */
  function LoginStep(s: MockState, c: LoginCredentials, now: nat): (MockState, Result<AuthResponse>)
    requires |s.users| > 0
  {
    if c.email == AdminEmail && c.password == AdminPassword then
      var token := MockToken(now);
      (s.(token := Some(token), user := Some(s.users[0])), Success(AuthResponse(s.users[0], token)))
    else
      (s, Failure(BadCredentials))
  }

  /** `register(credentials)` */
  function RegisterStep(s: MockState, c: RegisterCredentials, clock: Clock): (MockState, Result<AuthResponse>)
  {
    if c.password != c.passwordConfirmation then (s, Failure(PasswordMismatch))
    else if HasEmail(s.users, c.email) then (s, Failure(EmailTaken))
    else
      var u := User(|s.users| + 1, c.name, c.email, Some(clock.iso), clock.iso, clock.iso);
      var token := MockToken(clock.now);
      (MockState(Some(token), Some(u), s.users + [u]), Success(AuthResponse(u, token)))
  }

  /** `logout()` */
  function LogoutStep(s: MockState): MockState {
    s.(token := None, user := None)
  }

  /** A read endpoint guarded by `isAuthenticated` that answers `value`. */
  function GuardedRead<T>(s: MockState, persisted: Option<string>, value: T): (MockState, Result<T>)
    requires |s.users| > 0
  {
    var (t, ok) := Guard(s, persisted);
    (t, if ok then Success(value) else Failure(Unauthenticated))
  }

  /** `getUser()` */
  function GetUserStep(s: MockState, persisted: Option<string>): (MockState, Result<User>)
    requires |s.users| > 0
  {
    var (t, ok) := Guard(s, persisted);
    if !ok then (t, Failure(Unauthenticated))
    else
      var (t', u) := CurrentUserStep(t, persisted);
      (t', if u.Some? then Success(u.value) else Failure(UserNotFound))
  }

  /** Login succeeds exactly on the fixed credential pair. It then opens a
      session for the seeded first user, whatever email was typed, with a
      fresh mock token; otherwise it fails with the credentials message and
      changes nothing. The user list never changes. */
  lemma LoginSpec(s: MockState, c: LoginCredentials, now: nat, at: string)
    requires ValidState(s, at)
    ensures var (t, r) := LoginStep(s, c, now);
      && (r.Success? <==> c.email == AdminEmail && c.password == AdminPassword)
      && t.users == s.users
      && (r.Success? ==>
            && r.value.user == SeedUser(at) && r.value.user.email == "john@cheqqme.com"
            && r.value.user.email != c.email
            && StartsWith(r.value.token, TokenPrefix)
            && t.token == Some(r.value.token) && t.user == Some(r.value.user))
      && (r.Failure? ==> r.error == BadCredentials && t == s)
      && ValidState(t, at)
  {
    MockTokenShape(now, now);
  }

  /** Registration checks the confirmation first, then the email; on either
      failure nothing changes. On success exactly one user is appended, with
      id = old length + 1, and becomes the session user; the invariant is kept. */
  lemma RegisterSpec(s: MockState, c: RegisterCredentials, clock: Clock, at: string)
    requires ValidState(s, at)
    ensures var (t, r) := RegisterStep(s, c, clock);
      && (c.password != c.passwordConfirmation ==> r == Failure(PasswordMismatch) && t == s)
      && (c.password == c.passwordConfirmation && HasEmail(s.users, c.email) ==>
            r == Failure(EmailTaken) && t == s)
      && (r.Success? <==> c.password == c.passwordConfirmation && !HasEmail(s.users, c.email))
      && (r.Success? ==>
            && t.users[..|s.users|] == s.users && |t.users| == |s.users| + 1
            && var u := t.users[|s.users|];
               u == r.value.user && u.id == |s.users| + 1 && u.name == c.name && u.email == c.email
               && t.user == Some(u) && t.token == Some(r.value.token)
               && StartsWith(r.value.token, TokenPrefix))
      && ValidState(t, at)
  {
    var (t, r) := RegisterStep(s, c, clock);
    MockTokenShape(clock.now, clock.now);
    if r.Success? {
      var u := t.users[|s.users|];
      assert t.users[..|s.users|] == s.users;
      forall i, j | 0 <= i < j < |t.users|
        ensures t.users[i].email != t.users[j].email
      {
        if j == |s.users| {
          assert s.users[i] == t.users[i];
          assert !(s.users[i].email == c.email);
        }
      }
    }
  }

  /** Registration after a successful one with the same email is refused. */
  lemma RegisterTwiceRefused(s: MockState, c: RegisterCredentials, clock: Clock, clock': Clock, at: string)
    requires ValidState(s, at)
    requires RegisterStep(s, c, clock).1.Success?
    ensures RegisterStep(RegisterStep(s, c, clock).0, c, clock').1 == Failure(EmailTaken)
  {
    var t := RegisterStep(s, c, clock).0;
    assert t.users[|s.users|].email == c.email;
  }

  /** The login address is not a seeded user, so it can be registered. */
  lemma AdminEmailRegistrable(at: string, name: string, password: string, clock: Clock)
    ensures RegisterStep(Initial(at), RegisterCredentials(name, AdminEmail, password, password), clock).1.Success?
  {
    var s := Initial(at);
    assert !HasEmail(s.users, AdminEmail) by {
      assert s.users[0].email == "john@cheqqme.com";
      assert "john@cheqqme.com" != AdminEmail;
    }
  }

  /** Logout ends the session whatever the state, and keeps the invariant. */
  lemma LogoutSpec(s: MockState, at: string)
    requires ValidState(s, at)
    ensures LogoutStep(s).token == None && LogoutStep(s).user == None
    ensures LogoutStep(s).users == s.users && ValidState(LogoutStep(s), at)
  {
  }

  /** After logout a guarded endpoint fails exactly when the browser holds no
      mock token; if one is still persisted the seeded user's session is restored. */
  lemma GuardAfterLogout(s: MockState, persisted: Option<string>, at: string)
    requires ValidState(s, at)
    ensures var (t, ok) := Guard(LogoutStep(s), persisted);
      && (ok <==> Restorable(persisted))
      && (ok ==> t.user == Some(SeedUser(at)) && t.token == persisted)
  {
    LogoutSpec(s, at);
    GuardSpec(LogoutStep(s), persisted, at);
  }

  /** A guarded read answers its value exactly when `isAuthenticated` does,
      and the "Unauthenticated." error otherwise. */
  lemma GuardedReadSpec<T>(s: MockState, persisted: Option<string>, value: T, at: string)
    requires ValidState(s, at)
    ensures var (t, r) := GuardedRead(s, persisted, value);
      && (r.Success? <==> InMemory(s) || Restorable(persisted))
      && (r.Success? ==> r.value == value)
      && (r.Failure? ==> r.error == Unauthenticated && t == s)
      && t == Guard(s, persisted).0 && ValidState(t, at)
  {
    GuardSpec(s, persisted, at);
  }

  /** `getUser` answers the session user, or the seeded user of a restored
      session, and fails only with "Unauthenticated.": its "User not found."
      branch cannot be reached. */
  lemma GetUserSpec(s: MockState, persisted: Option<string>, at: string)
    requires ValidState(s, at)
    ensures var (t, r) := GetUserStep(s, persisted);
      && (r.Success? <==> InMemory(s) || Restorable(persisted))
      && (r.Success? && InMemory(s) ==> Some(r.value) == s.user)
      && (r.Success? && !InMemory(s) ==> r.value == SeedUser(at))
      && (r.Failure? ==> r.error == Unauthenticated)
      && r != Failure(UserNotFound)
      && t == Guard(s, persisted).0 && ValidState(t, at)
  {
    GuardSpec(s, persisted, at);
  }

  /** After a successful login, `getUser` answers the seeded user whatever
      the browser holds. */
  lemma LoginThenGetUser(s: MockState, c: LoginCredentials, now: nat, persisted: Option<string>, at: string)
    requires ValidState(s, at)
    requires LoginStep(s, c, now).1.Success?
    ensures GetUserStep(LoginStep(s, c, now).0, persisted).1 == Success(SeedUser(at))
  {
    LoginSpec(s, c, now, at);
    var t := LoginStep(s, c, now).0;
    GetUserSpec(t, persisted, at);
  }

  /** The token embeds the clock reading, so sessions opened at different
      milliseconds carry different tokens: two logins, a login and a
      registration, or two registrations. */
  lemma IssuedTokensDiffer(s: MockState, s': MockState, c: LoginCredentials, c': LoginCredentials,
                           rc: RegisterCredentials, rc': RegisterCredentials, m: nat, n: nat,
                           clock: Clock, clock': Clock)
    requires |s.users| > 0 && |s'.users| > 0
    ensures m != n && LoginStep(s, c, m).1.Success? && LoginStep(s', c', n).1.Success? ==>
      LoginStep(s, c, m).1.value.token != LoginStep(s', c', n).1.value.token
    ensures m != clock.now && LoginStep(s, c, m).1.Success? && RegisterStep(s', rc, clock).1.Success? ==>
      LoginStep(s, c, m).1.value.token != RegisterStep(s', rc, clock).1.value.token
    ensures clock.now != clock'.now && RegisterStep(s, rc, clock).1.Success? && RegisterStep(s', rc', clock').1.Success? ==>
      RegisterStep(s, rc, clock).1.value.token != RegisterStep(s', rc', clock').1.value.token
  {
    MockTokenShape(m, n);
    MockTokenShape(m, clock.now);
    MockTokenShape(clock.now, clock'.now);
  }

  /** `getClients` answers the embedded client of each seeded project, in order. */
  lemma SeedClients(at: string)
    ensures ClientsOf(SeedProjects(at)) == [SeedProjects(at)[0].client, SeedProjects(at)[1].client]
  {
  }

  /** The module state and the endpoints. */
  class MockBackend {
    const loadedAt: string
    var currentToken: Option<string>
    var currentUser: Option<User>
    var users: seq<User>

    function State(): MockState
      reads this
    {
      MockState(currentToken, currentUser, users)
    }

    predicate Valid()
      reads this
    {
      ValidState(State(), loadedAt)
    }

    /** Module load: one seeded user and no session. */
    constructor (loadedAt: string)
      ensures this.loadedAt == loadedAt && State() == Initial(loadedAt) && Valid()
    {
      this.loadedAt := loadedAt;
      currentToken := None;
      currentUser := None;
      users := [SeedUser(loadedAt)];
    }

    method IsAuthenticated(browser: Browser) returns (ok: bool)
      requires Valid()
      modifies this
      ensures Valid()
      ensures (State(), ok) == Guard(old(State()), browser.GetToken())
    {
      if currentToken.Some? && currentToken.value != "" && currentUser.Some? {
        return true;
      }
      if browser.hasWindow {
        var token := browser.GetToken();
        if token.Some? && token.value != "" && StartsWith(token.value, TokenPrefix) {
          currentToken := token;
          currentUser := Some(users[0]);
          return true;
        }
      }
      return false;
    }

    method GetCurrentUser(browser: Browser) returns (u: Option<User>)
      requires Valid()
      modifies this
      ensures Valid()
      ensures (State(), u) == CurrentUserStep(old(State()), browser.GetToken())
    {
      if currentUser.Some? {
        return currentUser;
      }
      var ok := IsAuthenticated(browser);
      if ok {
        return Some(users[0]);
      }
      return None;
    }

    method Login(c: LoginCredentials, now: nat) returns (r: Result<AuthResponse>)
      requires Valid()
      modifies this
      ensures Valid()
      ensures (State(), r) == LoginStep(old(State()), c, now)
    {
      if c.email == AdminEmail && c.password == AdminPassword {
        var token := MockToken(now);
        var user := users[0];
        currentToken := Some(token);
        currentUser := Some(user);
        MockTokenShape(now, now);
        return Success(AuthResponse(user, token));
      }
      return Failure(BadCredentials);
    }

    method Register(c: RegisterCredentials, clock: Clock) returns (r: Result<AuthResponse>)
      requires Valid()
      modifies this
      ensures Valid()
      ensures (State(), r) == RegisterStep(old(State()), c, clock)
    {
      RegisterSpec(State(), c, clock, loadedAt);
      if c.password != c.passwordConfirmation {
        return Failure(PasswordMismatch);
      }
      if HasEmail(users, c.email) {
        return Failure(EmailTaken);
      }
      var newUser := User(|users| + 1, c.name, c.email, Some(clock.iso), clock.iso, clock.iso);
      users := users + [newUser];
      var token := MockToken(clock.now);
      currentToken := Some(token);
      currentUser := Some(newUser);
      return Success(AuthResponse(newUser, token));
    }

    method Logout()
      requires Valid()
      modifies this
      ensures Valid()
      ensures State() == LogoutStep(old(State()))
    {
      currentToken := None;
      currentUser := None;
    }

    method GetUser(browser: Browser) returns (r: Result<User>)
      requires Valid()
      modifies this
      ensures Valid()
      ensures (State(), r) == GetUserStep(old(State()), browser.GetToken())
    {
      var ok := IsAuthenticated(browser);
      if !ok {
        return Failure(Unauthenticated);
      }
      var user := GetCurrentUser(browser);
      if user.None? {
        return Failure(UserNotFound);
      }
      return Success(user.value);
    }

    method GetDashboardStats(browser: Browser) returns (r: Result<DashboardStats>)
      requires Valid()
      modifies this
      ensures Valid()
      ensures (State(), r) == GuardedRead(old(State()), browser.GetToken(), SeedStats(loadedAt))
    {
      var ok := IsAuthenticated(browser);
      if !ok {
        return Failure(Unauthenticated);
      }
      return Success(SeedStats(loadedAt));
    }

    method GetProjects(browser: Browser) returns (r: Result<seq<Project>>)
      requires Valid()
      modifies this
      ensures Valid()
      ensures (State(), r) == GuardedRead(old(State()), browser.GetToken(), SeedProjects(loadedAt))
    {
      var ok := IsAuthenticated(browser);
      if !ok {
        return Failure(Unauthenticated);
      }
      return Success(SeedProjects(loadedAt));
    }

    method GetClients(browser: Browser) returns (r: Result<seq<Client>>)
      requires Valid()
      modifies this
      ensures Valid()
      ensures (State(), r) == GuardedRead(old(State()), browser.GetToken(), ClientsOf(SeedProjects(loadedAt)))
    {
      var ok := IsAuthenticated(browser);
      if !ok {
        return Failure(Unauthenticated);
      }
      var clients := ClientsOf(SeedProjects(loadedAt));
      return Success(clients);
    }

    method GetDocuments(browser: Browser) returns (r: Result<seq<Document>>)
      requires Valid()
      modifies this
      ensures Valid()
      ensures (State(), r) == GuardedRead(old(State()), browser.GetToken(), SeedDocuments(loadedAt))
    {
      var ok := IsAuthenticated(browser);
      if !ok {
        return Failure(Unauthenticated);
      }
      return Success(SeedDocuments(loadedAt));
    }
  }
}
