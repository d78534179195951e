# cheqqme-one session layer in Dafny

This project models the authentication and session layer of the cheqqme-one
client portal, and the projects page that sits on top of it. Four parts are
modelled:

- **Token store** (`token_store.dfy`). The `ApiClient`'s token management keeps one
  bearer token in two browser stores: the `auth_token` cookie and the
  `auth_token` entry of `localStorage`. A read prefers the cookie. Outside a
  browser nothing is read or written.
- **Request layer** (`api.dfy`). `fetchWithAuth` sends each call either to the
  mock handlers or to the axios client. The client has a request interceptor
  that attaches `Authorization: Bearer <token>` and a response interceptor
  that, on a 401, clears the token and sends the browser to `/auth/login`
  unless the current path contains `/auth`.
- **Mock backend** (`mock_api.dfy`). An in-memory stand-in for the server.
  It has one fixed credential pair, a growable user list seeded with one
  user, and a session held in the module variables `currentToken` and
  `currentUser`. Every read endpoint is guarded by `isAuthenticated`, which
  restores a session from a persisted `mock-jwt-token-` token. A restored
  session, and any successful login, always belongs to the seeded first user
  (john@cheqqme.com).
- **Session manager and projects page** (`auth.dfy`, `projects.dfy`).
  `checkAuth`, `login`, `register` and `logout` update `user` and
  `isLoading`. The projects page loads its list once, filters it with a
  case-insensitive search on the project name or the client name, and
  renders a colour and a label for each status.

Code that changes state in place is modelled as classes:

- `Browser`: the browser's stores, path and navigation.
- `MockBackend`: the mock module's variables.
- `Fetcher`: `fetchWithAuth`.
- `AuthProvider` and `ProjectsPage`: the React state of the two components.

Each method of `Browser`, `MockBackend` and `Fetcher` is proved to perform
exactly one step of a value-level specification (`BrowserState`, `MockState`
with `LoginStep`, `RegisterStep`, `Guard` and the others,
`FetchGet`/`FetchPost`, `AfterReply`). The lemmas state what those steps
promise. The methods of `AuthProvider` and `ProjectsPage` state their own
fields (`user`, `isLoading`, `projects`, `searchQuery`) directly in their
contracts. They give the browser and the mock state as compositions of those
steps, for example `BrowserAfter(…).Cleared()` or `b.Stored(token)` after
`BrowserAfter`.

Things the program cannot see are parameters:

- The real backend's answer to a request is `reply`.
- The clock readings `Date.now()` and `new Date().toISOString()` are a
  `Clock` (or the `at` string fixed when the mock module loads).
- `shouldUseMockApi()` is the `mockMode` flag of a `Fetcher`.

Mock failures carry only `response.data.message` and no HTTP status
(`src/lib/mock-api.ts:125-132`), and mock calls never pass through the axios
interceptors (`src/lib/api.ts:138-150`). So the response interceptor never
clears the token or redirects after a mock failure (`Api.BrowserAfter`,
`Auth.AuthProvider.Login`). The token can still be cleared by the caller:
`checkAuth` clears it when its GET /user fails, mocked or not
(`Auth.AuthProvider.CheckAuth`).

## Model

| member | source | states |
|---|---|---|
| Strings.ContainsIff | src/app/projects/page.tsx:35-36 | `includes` holds exactly when the needle occurs at some index |
| Strings.Lower | src/app/projects/page.tsx:35-36 | `toLowerCase` keeps the length and lower-cases each character (ASCII) |
| Strings.LowerOfUpper | src/app/projects/page.tsx:35-36 | lower-casing an upper-cased string gives the lower-cased original |
| Strings.StartsWith | src/lib/api.ts:146 | `startsWith`: the definition the lemmas and method contracts below refer to |
| Strings.Contains | src/app/projects/page.tsx:35-36 | `includes`: the definition the lemmas and method contracts below refer to; characterised by `ContainsIff` |
| Strings.NatToString | src/lib/mock-api.ts:116 | the rendering of `Date.now()` is all decimal digits without a leading zero |
| Strings.DecimalRoundTrip | src/lib/mock-api.ts:116 | reading the decimal rendering back gives the number |
| Strings.NatToStringInjective | src/lib/mock-api.ts:177 | distinct numbers render differently |
| Strings.FirstIndex | src/app/projects/page.tsx:112 | the index found holds the character and none occurs before it |
| Strings.ReplaceFirst | src/app/projects/page.tsx:112 | `replace` with a one-character pattern changes only the first occurrence, and changes nothing when there is none |
| TokenStore.SetThenGet | src/lib/api.ts:51-60 | after `setToken(t)`, `getToken()` answers `t` in a browser and null outside it; path and navigation are untouched |
| TokenStore.ClearThenGet | src/lib/api.ts:51-66 | after `clearToken()` no token is read from either store, and clearing twice is clearing once |
| TokenStore.NoWindow | src/lib/api.ts:51-66 | outside a browser the three token methods read nothing and write nothing |
| TokenStore.CookiePreferred | src/lib/api.ts:53 | a non-empty cookie wins over `localStorage`, even when the two differ |
| TokenStore.BrowserState.Token | src/lib/api.ts:51-54 | `getToken()` on a browser state: the definition the lemmas and method contracts below refer to |
| TokenStore.BrowserState.Stored | src/lib/api.ts:56-60 | `setToken(t)` on a browser state: the definition the lemmas and method contracts below refer to |
| TokenStore.BrowserState.Cleared | src/lib/api.ts:62-66 | `clearToken()` on a browser state: the definition the lemmas and method contracts below refer to |
| TokenStore.Browser.GetToken | src/lib/api.ts:51-54 | `ApiClient.getToken()` on the live browser; the definition the lemmas and method contracts below refer to |
| TokenStore.Browser.SetToken | src/lib/api.ts:56-60 | in a browser both stores hold the token afterwards and the token reads back (nothing is written outside one) |
| TokenStore.Browser.ClearToken | src/lib/api.ts:62-66 | in a browser both stores are emptied (nothing is written outside one), and no token reads back |
| TokenStore.Browser.Navigate | src/lib/api.ts:42 | only the navigation target changes |
| MockApi.ClientsOf | src/lib/mock-api.ts:269 | the client list has one entry per project: that project's embedded client, in order |
| MockApi.SeedClients | src/lib/mock-api.ts:256-271 | `getClients` answers Acme Corp and Tech Solutions Inc, the clients of the two seeded projects |
| MockApi.MockTokenShape | src/lib/mock-api.ts:116 | issued tokens are non-empty and carry the `mock-jwt-token-` prefix; distinct clock readings give distinct tokens |
| MockApi.IssuedTokensDiffer | src/lib/mock-api.ts:116-177 | sessions opened at different clock readings carry different tokens, for each pair: login/login, login/registration, registration/registration |
| MockApi.MockToken | src/lib/mock-api.ts:116 | the token a login or registration issues: the definition the lemmas and method contracts below refer to |
| MockApi.Guard | src/lib/mock-api.ts:75-93 | `isAuthenticated()`: the definition the lemmas and method contracts below refer to; see `GuardSpec` |
| MockApi.CurrentUserStep | src/lib/mock-api.ts:96-107 | `getCurrentUser()`: the definition the lemmas and method contracts below refer to; see `GetUserSpec` |
| MockApi.LoginStep | src/lib/mock-api.ts:111-133 | `login()`: the definition the lemmas and method contracts below refer to; see `LoginSpec` |
| MockApi.RegisterStep | src/lib/mock-api.ts:135-182 | `register()`: the definition the lemmas and method contracts below refer to; see `RegisterSpec` |
| MockApi.LogoutStep | src/lib/mock-api.ts:184-188 | `logout()`: the definition the lemmas and method contracts below refer to; see `LogoutSpec` |
| MockApi.GetUserStep | src/lib/mock-api.ts:190-215 | `getUser()`: the definition the lemmas and method contracts below refer to; see `GetUserSpec` |
| MockApi.GuardedRead | src/lib/mock-api.ts:218-287 | the four guarded read endpoints: the definition the lemmas and method contracts below refer to; see `GuardedReadSpec` |
| MockApi.GuardSpec | src/lib/mock-api.ts:75-93 | `isAuthenticated` answers yes exactly when memory holds a session or a mock token is persisted; a restored session is the seeded user's; an existing session is not touched; the state invariant is kept |
| MockApi.LoginSpec | src/lib/mock-api.ts:111-133 | login succeeds exactly on admin@cheqqme.com / password; the session user is then the seeded john@cheqqme.com, not the typed email; a failure carries "The provided credentials are incorrect." and changes nothing |
| MockApi.RegisterSpec | src/lib/mock-api.ts:135-182 | the confirmation check comes first, then the duplicate-email check, and both failures change nothing; success appends exactly one user with id = old length + 1 and opens its session; emails stay distinct |
| MockApi.RegisterTwiceRefused | src/lib/mock-api.ts:155-163 | registering the same email again fails with "The email has already been taken." |
| MockApi.AdminEmailRegistrable | src/lib/mock-api.ts:155-163 | the login address is not a seeded user, so it can be registered |
| MockApi.LogoutSpec | src/lib/mock-api.ts:184-188 | logout ends the in-memory session in every state and keeps the user list |
| MockApi.GuardAfterLogout | src/lib/mock-api.ts:75-188 | after logout a guarded call succeeds exactly when a mock token is still persisted, and then restores the seeded user |
| MockApi.GuardedReadSpec | src/lib/mock-api.ts:218-287 | each read endpoint answers its fixture exactly when `isAuthenticated` holds, and "Unauthenticated." otherwise |
| MockApi.GetUserSpec | src/lib/mock-api.ts:190-215 | `getUser` answers the session user, or the seeded user of a restored session; it fails only with "Unauthenticated.", so "User not found." cannot occur |
| MockApi.LoginThenGetUser | src/lib/mock-api.ts:111-215 | after a successful login `getUser` answers the seeded user, whatever the browser holds |
| MockApi.MockBackend.constructor | src/lib/mock-api.ts:5-72 | module load: one seeded user and no session |
| MockApi.MockBackend.IsAuthenticated | src/lib/mock-api.ts:75-93 | performs `Guard` on the module state |
| MockApi.MockBackend.GetCurrentUser | src/lib/mock-api.ts:96-107 | performs `CurrentUserStep` |
| MockApi.MockBackend.Login | src/lib/mock-api.ts:111-133 | performs `LoginStep` and keeps the invariant |
| MockApi.MockBackend.Register | src/lib/mock-api.ts:135-182 | performs `RegisterStep` and keeps the invariant |
| MockApi.MockBackend.Logout | src/lib/mock-api.ts:184-188 | performs `LogoutStep` |
| MockApi.MockBackend.GetUser | src/lib/mock-api.ts:190-215 | performs `GetUserStep` |
| MockApi.MockBackend.GetDashboardStats | src/lib/mock-api.ts:218-237 | guarded read of the fixed stats 15 / 8 / 42 and the seeded documents |
| MockApi.MockBackend.GetProjects | src/lib/mock-api.ts:240-254 | guarded read of the seeded projects |
| MockApi.MockBackend.GetClients | src/lib/mock-api.ts:256-271 | guarded read of the clients derived from the seeded projects |
| MockApi.MockBackend.GetDocuments | src/lib/mock-api.ts:273-287 | guarded read of the seeded documents |
| Api.RouteSpec | src/lib/api.ts:136-156 | outside mock mode every call goes to axios; in mock mode `get` goes to `handleGet`, `post` goes to `handleAuth` exactly for "/auth/..." and "/user" and to `handleGet` otherwise; put, patch and delete are never mocked |
| Api.AuthRouteExact | src/lib/api.ts:95-107 | `handleAuth` selects each endpoint by exact path comparison, and only for its own path |
| Api.ReadRouteExact | src/lib/api.ts:114-127 | `handleGet` selects each endpoint by exact path comparison, and only for its own path |
| Api.AuthPathsReachAuthHandler | src/lib/api.ts:95-148 | every path `handleAuth` knows is routed to it by `post` |
| Api.Route | src/lib/api.ts:136-156 | where `fetchWithAuth` sends a call: the definition the lemmas and method contracts below refer to; see `RouteSpec` |
| Api.AuthRouteOf | src/lib/api.ts:97-107 | `handleAuth`'s path chain: the definition the lemmas and method contracts below refer to; see `AuthRouteExact` |
| Api.ReadRouteOf | src/lib/api.ts:116-127 | `handleGet`'s path chain: the definition the lemmas and method contracts below refer to; see `ReadRouteExact` |
| Api.MockLogin | src/lib/api.ts:97-98 | `mockApi.login(data as any)` for each body shape: the definition the lemmas and method contracts below refer to |
| Api.MockRegister | src/lib/api.ts:99-100 | `mockApi.register(data as any)` for each body shape: the definition the lemmas and method contracts below refer to |
| Api.MockHandleAuth | src/lib/api.ts:95-112 | `mockHandlers.handleAuth`: the definition the lemmas and method contracts below refer to |
| Api.MockHandleGet | src/lib/api.ts:114-132 | `mockHandlers.handleGet`: the definition the lemmas and method contracts below refer to |
| Api.FetchGet | src/lib/api.ts:137-142 | `fetchWithAuth.get` on the mock state: the definition the lemmas and method contracts below refer to |
| Api.FetchPost | src/lib/api.ts:144-152 | `fetchWithAuth.post` on the mock state: the definition the lemmas and method contracts below refer to |
| Api.MockHandleGetKeepsValid | src/lib/api.ts:114-132 | every mock read keeps the mock state's invariant |
| Api.MockHandleAuthKeepsValid | src/lib/api.ts:94-112 | every mock auth call keeps the mock state's invariant |
| Api.FetchKeepsValid | src/lib/api.ts:94-152 | every `get` and `post`, mocked or not, keeps the mock state's invariant |
| Api.UnknownMockPath | src/lib/api.ts:107-127 | in mock mode an unknown path fails with "Mock endpoint not implemented: <path>" and changes nothing |
| Api.MockPostOutsideAuthIsRead | src/lib/api.ts:144-150 | in mock mode a `post` outside "/auth/" and "/user" is answered like the `get` of the same path; the body is ignored |
| Api.Authorize | src/lib/api.ts:23-32 | the bearer header is set exactly when a non-empty token is stored, and every other header is kept |
| Api.AfterReplySpec | src/lib/api.ts:35-47 | a 401 clears both stores in a browser (nothing is written outside one); the browser goes to /auth/login exactly when there is a window and the path does not contain "/auth"; any other answer changes nothing |
| Api.NoRedirectFromLoginPage | src/lib/api.ts:41-43 | a 401 received on the login page does not redirect again |
| Api.AfterReply | src/lib/api.ts:35-47 | the response interceptor's effect on the browser: the definition the lemmas and method contracts below refer to; see `AfterReplySpec` |
| Api.BrowserAfter | src/lib/api.ts:136-156 | only calls routed to axios run the interceptors: the definition the lemmas and method contracts below refer to |
| Api.Fetcher.Send | src/lib/api.ts:23-87 | the request carries the default headers plus the bearer header; the reply is passed through; the browser changes as `AfterReply` says |
| Api.Fetcher.HandleAuth | src/lib/api.ts:95-112 | performs `MockHandleAuth` on the mock backend |
| Api.Fetcher.HandleGet | src/lib/api.ts:114-132 | performs `MockHandleGet` on the mock backend |
| Api.Fetcher.Get | src/lib/api.ts:137-142 | performs `FetchGet`; headers are sent only when the call goes to axios |
| Api.Fetcher.Post | src/lib/api.ts:144-152 | performs `FetchPost`; headers are sent only when the call goes to axios |
| Api.Fetcher.Put | src/lib/api.ts:154 | always goes to axios, with the interceptors |
| Api.Fetcher.Patch | src/lib/api.ts:155 | always goes to axios, with the interceptors |
| Api.Fetcher.Delete | src/lib/api.ts:156 | always goes to axios, with the interceptors |
| Auth.AuthProvider.constructor | src/hooks/use-auth.tsx:18-20 | no user, loading |
| Auth.AuthProvider.CheckAuth | src/hooks/use-auth.tsx:22-39 | without a usable token nothing is called and nothing changes; otherwise GET /user sets the user, and any failure clears the token and the user; loading ends in every case |
| Auth.AuthProvider.Login | src/hooks/use-auth.tsx:41-55 | on success the returned token is stored and the returned user set; a failure is rethrown unchanged, with the user kept; loading ends |
| Auth.AuthProvider.Register | src/hooks/use-auth.tsx:57-71 | as `Login`, for POST /auth/register |
| Auth.AuthProvider.Logout | src/hooks/use-auth.tsx:73-82 | whatever the call answers, the token and the user are cleared |
| Auth.MockLoginThenCheckAuth | src/hooks/use-auth.tsx:22-55 | in mock mode a login with the fixed credentials stores a token that `checkAuth` finds, and its GET /user answers the seeded user |
| Auth.MockLogoutEndsSession | src/hooks/use-auth.tsx:73-82 | in mock mode, after logout no token is stored and a guarded read fails with "Unauthenticated." |
| Projects.Filter | src/app/projects/page.tsx:34-37 | the filtered list is no longer than the list, and every project in it is from the list and matches |
| Projects.FilterIsSubsequence | src/app/projects/page.tsx:34-37 | the filter keeps projects in their original order |
| Projects.FilterMembership | src/app/projects/page.tsx:34-37 | a project is kept exactly when it is in the list and its name or its client's name contains the query, ignoring case |
| Projects.FilterKeepsAll | src/app/projects/page.tsx:34-37 | when every project matches, the whole list is kept |
| Projects.EmptyQueryKeepsAll | src/app/projects/page.tsx:17-37 | the initial empty search shows every project |
| Projects.FilterIgnoresCase | src/app/projects/page.tsx:35-36 | queries equal after lower-casing select the same projects |
| Projects.FilterUpperCaseQuery | src/app/projects/page.tsx:35-36 | typing the query in capitals changes nothing |
| Projects.Matches | src/app/projects/page.tsx:34-37 | the filter's test for one project: the definition the lemmas and method contracts below refer to |
| Projects.StatusColorSpec | src/app/projects/page.tsx:39-47 | the four statuses get four distinct colours; exactly the other strings get the grey default |
| Projects.StatusColor | src/app/projects/page.tsx:39-47 | `getStatusColor`: the definition the lemmas and method contracts below refer to; see `StatusColorSpec` |
| Projects.StatusLabel | src/app/projects/page.tsx:112 | `status.replace('_', ' ')`: the definition the lemmas and method contracts below refer to; see `StatusLabelSpec` |
| Projects.StatusLabelSpec | src/app/projects/page.tsx:112 | the label replaces the first underscore with a space and keeps every other character |
| Projects.StatusLabelExamples | src/app/projects/page.tsx:112 | "on_hold" is shown as "on hold", and a second underscore would stay |
| Projects.ProjectsPage.constructor | src/app/projects/page.tsx:15-17 | no projects, loading, empty search |
| Projects.ProjectsPage.LoadProjects | src/app/projects/page.tsx:19-29 | GET /projects replaces the list on success and keeps it on failure; loading ends either way |
| Projects.ProjectsPage.FilteredProjects | src/app/projects/page.tsx:34-37 | `filteredProjects` of the page state: `Filter` applied to the loaded list and the query |
| Projects.ProjectsPage.SetSearchQuery | src/app/projects/page.tsx:76 | only the search query changes |

## Left out

- Simulated latency (`delay`) and the asynchronous interleaving of calls. Every call runs to completion before the next one starts.
- The clock. `Date.now()` and `toISOString()` are parameters, and the model does not relate a `Date.now()` reading to a `toISOString()` reading.
- The seed data's separate `new Date().toISOString()` calls (`src/lib/mock-api.ts:10-12`, `27-31`, `43-47`, `62-63`) are one reading, `at`. The source can give those fields timestamps a millisecond apart; the model gives them all the same timestamp.
- MockApi.RegisterStep: its three `toISOString()` calls (`src/lib/mock-api.ts:170-172`) are one reading, `clock.iso`, so the new user's three timestamps are equal in the model. The source may give them values a millisecond apart.
- The axios transport: base URL, timeout, JSON encoding, and the `config` argument of each call. The real backend's answer is a parameter.
- The cookie's seven-day expiry. A stored cookie never expires in the model.
- Navigation is recorded as the last `window.location.href` assignment (`navigatedTo`). The page load it triggers, and the new `pathname` after it, are not modelled.
- `shouldUseMockApi()` reads environment variables. It is the fixed `mockMode` flag of a `Fetcher`.
- Error logging (`console.error`).
- React rendering, `useEffect` scheduling, the context object and the `useAuth` hook's "must be used within an AuthProvider" check.
- The presentation of the projects page: cards, skeletons, dates.
- Strings.Lower: only ASCII letters are case-folded, not the full Unicode `toLowerCase`. Projects.FilterIgnoresCase and Projects.FilterUpperCaseQuery are stated for that folding.
- A JavaScript `TypeError` from a posted body of the wrong shape is modelled by its message only. The only shapes modelled are no body, login credentials and registration credentials.
- Auth.AuthProvider.Logout: the mock logout reads no clock, so it is passed a fixed `Clock` reading.
- Project `status` is an arbitrary string rather than the four-value union, because the page handles any string.
- Auth.AuthProvider.CheckAuth, Login and Register do not model a reply whose `data` lacks the expected field. The reply datatype always has that field.
- The `ApiResponse` and `PaginatedResponse` envelopes beyond `data`. Pagination fields are not read by the page.
