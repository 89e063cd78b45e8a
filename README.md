# Token refresh, session state and access gates of a Next.js auth client

This project models the authentication core of a Next.js application that
signs users in against a backend and keeps their session in two cookies:
`nextauth.token` (the access token) and `nextauth.refreshToken`. The model
has three parts, each proved in Dafny.

- **The refresh coordinator** (`api.dfy`). This is the response interceptor
  of every API client that `setupAPIClient` builds.
  - A 401 whose body `code` is `"token.expired"` queues the failing request.
  - The first such 401 raises the module-level `isRefreshing` flag. It also
    issues the single `POST /refresh`, carrying the refresh-token cookie.
  - When that call succeeds, both cookies and the client's `common` default
    `Authorization` header take the new token. Every queued request whose
    config has headers is reissued in queue order with `Bearer <token>`. A
    queued request without headers is dropped, and its promise never settles.
  - When that call fails, every queued request is rejected with the refresh
    error, and the browser signs out.
  - Any other 401 rejects with `AuthTokenError` on the server. In the
    browser it signs out, then rejects with the original error.
  - Every other error passes through unchanged.
- **The session provider** (`auth_context.dfy`). `signOut` destroys the two
  cookies and navigates to `/`. `signIn` stores the cookies, the user and
  the header, then navigates. On mount, a stored token is turned back into
  a user through `/me`. The published value has `isAuthenticated = !!user`.
- **The permission gate and the page guards.**
  - `permissions.dfy`, `use_permissions.dfy` and `use_check_permissions.dfy`
    hold `validateUserPermissions` and the two hooks that repeat or wrap it.
    Permissions combine with AND and roles with OR. A list counts as given
    whenever it is present, so an empty permission list passes and an empty
    role list fails.
  - `with_ssr_auth.dfy`, `with_ssr_guest.dfy` and `index_page.dfy` hold the
    server-side guards. They decide only on whether the token cookie is
    truthy, and on how the wrapped page function ends.

State that JavaScript changes in place is modelled as Dafny classes:

- `Cookies.Context` is an execution context: the browser, or one server
  request. It holds a cookie jar and the routes pushed on the router.
- `AuthContext.AuthProvider` holds the provider's `user` and the `common`
  default header of the API client it calls.
- `Api.RefreshCoordinator` holds the module-level flag and queue. It also
  holds a log of refresh calls, a log of queue callbacks that fired, and a
  count of settled refreshes.
- `Api.ApiClient` holds one client's context and its two `Authorization`
  slots. `instanceAuth` is the header passed to `axios.create`
  (services/api.ts:24-27). `commonAuth` is
  `api.defaults.headers.common["Authorization"]`, which a successful refresh
  writes (services/api.ts:76-78). Axios lets the instance header override the
  common one. So after a refresh, a client's later requests still send the
  token it was created with. Only the queued requests get the new token, set
  on each config by hand (services/api.ts:110).

Each event is one method and runs as one atomic step. This matches
JavaScript's one-handler-at-a-time event loop. The events are: an error
reaching the interceptor, the refresh call settling, and signIn or mount
together with the response they await.

`RefreshCoordinator.Valid()` is the single-flight invariant, and every
method keeps it:

- the flag is up exactly while one refresh call is outstanding;
- the queue is empty whenever the flag is down;
- the number of refresh calls made equals the number settled, plus one
  while the flag is up.

The pure decisions are functions, and their properties are lemmas: the gate,
the hooks, the guards and the queue drains.

Where the code differs from what its comments or callers suggest, the model
follows the code:

- **A list counts as given by truthiness.** The comments at
  utils/validateUserPermissions.ts:20 and :29 read a list as given when it is
  "not undefined or > 0". The code at :21 and :30 tests only truthiness, and
  an empty array is truthy. So `roles: []` always denies.
  `Permissions.AgreesWithCommentsExceptEmptyRoles` proves that this is the
  only input where the two readings part.
- **withSSRAuth takes no access requirement.** pages/metrics.tsx:32-35
  passes a second argument with permissions and roles. utils/withSSRAuth.ts:12
  declares only the page function, so that requirement is never checked.
- **Sign-out on an unrecoverable 401 happens only in the browser.** This
  holds for a non-expired 401 and for a failed refresh. On the server, the
  non-expired 401 is rejected with `AuthTokenError` instead.
- **The triggering request is queued too.** The request that starts a
  refresh waits on the queue like every later one.
- **signIn navigates to `"/dashboard "`.** The route keeps its trailing
  space, as the code writes it.
- **signOut does not clear the provider's `user`.** It only destroys the
  cookies and navigates (contexts/AuthContext.tsx:29-35). The provider's
  `isAuthenticated` stays true until the page reloads.
- **The refresh flag and queue are shared across users on the server.** They
  are module-level (services/api.ts:7 and :14), so every `setupAPIClient(ctx)`
  uses them. A server request of one user that fails with an expired token
  while another user's refresh is under way is queued behind it, and is
  reissued with the other user's new token. Its own cookies are not
  written.

## Model

| member | source | states |
|---|---|---|
| `Cookies.StoreSessionWrites` | services/api.ts:66-74 | writing the session sets exactly the two cookies to the given token and refresh token, each with maxAge 2592000 and path "/", and leaves every other cookie as it was |
| `Cookies.ClearSessionRemoves` | contexts/AuthContext.tsx:32-33 | destroying the session removes exactly the two cookies, keeps every other cookie with its value, and leaves no truthy token |
| `Cookies.ClearAfterStore` | contexts/AuthContext.tsx:29-35 | a sign-out after a sign-in or refresh leaves the jar exactly as a sign-out of the earlier jar would |
| `AuthContext.ContextValue` | contexts/AuthContext.tsx:38-39 | the published `isAuthenticated` is true if and only if a user is defined |
| `AuthContext.SignOut` | contexts/AuthContext.tsx:29-35 | the jar becomes `ClearSession` of the old one, which by `Cookies.ClearSessionRemoves` removes exactly `nextauth.token` and `nextauth.refreshToken` and leaves every other cookie alone; "/" is pushed |
| `AuthContext.AuthProvider.constructor` | contexts/AuthContext.tsx:38 | the provider starts with no user and has issued no request |
| `AuthContext.AuthProvider.Value` | contexts/AuthContext.tsx:99 | the value handed to consumers carries the user and is authenticated exactly when the user is defined |
| `AuthContext.AuthProvider.Mount` | contexts/AuthContext.tsx:42-59 | with no truthy token, nothing is requested and nothing changes; with one, `/me` is requested; a successful `/me` sets the user from the response; a failed one signs out in the browser only and leaves the user as it was |
| `AuthContext.AuthProvider.SignIn` | contexts/AuthContext.tsx:61-96 | on success, both cookies come from the response's token pair (30 days, path "/"), the user is the credentials' email with the response's permissions and roles, the default header is "Bearer " + token, the route "/dashboard " is pushed, and the provider is authenticated; a failed request changes no cookie, user, header or route |
| `Permissions.Includes` | utils/validateUserPermissions.ts:24 | `includes` is true exactly when the value occurs in the list |
| `Permissions.EveryIncluded` | utils/validateUserPermissions.ts:23-25 | `every`/`includes` is true exactly when every required entry is held (so vacuously true on an empty list) |
| `Permissions.SomeIncluded` | utils/validateUserPermissions.ts:32 | `some`/`includes` is true exactly when at least one required entry is held (so false on an empty list) |
| `Permissions.ValidateUserPermissions` | utils/validateUserPermissions.ts:13-38 | the verdict is exactly: a user is present, and every given permission is held, and a given role list shares at least one role with the user |
| `Permissions.AbsentUserDenied` | utils/validateUserPermissions.ts:19 | an absent user is denied for any permissions and roles |
| `Permissions.NothingRequiredPasses` | utils/validateUserPermissions.ts:37 | with neither list given, any present user passes |
| `Permissions.EmptyPermissionsVacuous` | utils/validateUserPermissions.ts:21-27 | an empty permission list gives the same verdict as no permission list |
| `Permissions.EmptyRolesDeny` | utils/validateUserPermissions.ts:30-34 | an empty role list denies every user |
| `Permissions.OnlyMembershipMatters` | utils/validateUserPermissions.ts:19-37 | reordering or duplicating the required lists or the user's lists never changes the verdict |
| `Permissions.MonotoneInGrants` | utils/validateUserPermissions.ts:19-37 | a user who holds more permissions and roles than one who passes also passes |
| `Permissions.AgreesWithCommentsExceptEmptyRoles` | utils/validateUserPermissions.ts:20-34 | the truthiness test equals the "present and non-empty" reading of the comments at :20 and :29 on every input except an empty role list, where the code denies and the commented reading ignores the list |
| `UsePermissionsHook.UsePermissions` | hooks/usePermissions.ts:9-32 | the verdict is exactly: authenticated, and every given permission is held by a defined user, and a given role list meets a defined user's roles at least once |
| `UsePermissionsHook.UnauthenticatedDenied` | hooks/usePermissions.ts:12 | an unauthenticated context is denied whatever the lists are |
| `UsePermissionsHook.AgreesWithGate` | hooks/usePermissions.ts:9-32 | on every value the provider publishes, the hook equals validateUserPermissions on the same user, empty role list included |
| `UsePermissionsHook.DisagreesOffInvariant` | hooks/usePermissions.ts:12-31 | on a context that claims authentication without a user, the hook passes where the gate denies, so the agreement rests on `isAuthenticated == !!user` |
| `UseCheckPermissionsHook.UseCheckPermissions` | hooks/useCheckPermissions.ts:11-27 | unauthenticated denies without consulting the gate; authenticated gives exactly the gate's verdict |
| `UseCheckPermissionsHook.AuthenticationTestRedundant` | hooks/useCheckPermissions.ts:17-24 | on every published value, the hook equals the gate applied to the bare user |
| `UseCheckPermissionsHook.HooksAgree` | hooks/useCheckPermissions.ts:11-27 | UseCheckPermissions and UsePermissions agree on every value the provider can publish |
| `UseCheckPermissionsHook.HooksPartOffInvariant` | hooks/useCheckPermissions.ts:17 | off the provider's invariant the two hooks disagree |
| `SSRAuth.RunWithSSRAuth` | utils/withSSRAuth.ts:18-63 | applied to a request context, the guard returns the decision of `WithSSRAuth`, destroys the two cookies in place only where that decision does, and says whether the page ran |
| `SSRAuth.NoTokenRedirectsToLogin` | utils/withSSRAuth.ts:25-32 | decision table, first row: a missing or empty token gives a non-permanent redirect to "/", the page is not run and the cookies are unchanged |
| `SSRAuth.PageResultPassesThrough` | utils/withSSRAuth.ts:36-38 | decision table, second row: with a token, the page's result is returned unchanged and the guard itself writes no cookie (what the page does to the cookies is not modelled) |
| `SSRAuth.PageFailuresBecomeRedirects` | utils/withSSRAuth.ts:39-61 | decision table, last rows: an AuthTokenError destroys both session cookies and redirects to "/"; any other failure redirects to "/error" and the guard writes no cookie; both redirects are non-permanent |
| `SSRAuth.NeverThrows` | utils/withSSRAuth.ts:36-62 | the guard always returns a result; no page failure escapes it |
| `SSRAuth.CookiesChangeOnlyOnAuthTokenError` | utils/withSSRAuth.ts:41-53 | the guard's own cookie writes happen only when a token was present and the page threw AuthTokenError, and then only clear the session; the page's own writes are not modelled |
| `SSRAuth.OwnRedirectsNonPermanent` | utils/withSSRAuth.ts:26-61 | a permanent redirect can come only from the page's own result passed through; every redirect the guard builds is non-permanent |
| `SSRAuth.DependsOnlyOnTokenPresence` | utils/withSSRAuth.ts:12-25 | two requests whose token truthiness agrees get the same outcome and run the page alike; no permission or role is consulted |
| `SSRAuth.AuthTokenErrorEndsSession` | utils/withSSRAuth.ts:42-46 | after an AuthTokenError, the next guarded request is redirected at once without running the page |
| `SSRGuest.TokenRedirectsToDashboard` | utils/withSSRGuest.ts:24-31 | decision table, first row: a truthy token gives a non-permanent redirect to "/dashboard" and the page is not run |
| `SSRGuest.NoTokenRunsPage` | utils/withSSRGuest.ts:34 | decision table, second row: without a token, the page's outcome is the guard's outcome unchanged, a throw included |
| `SSRGuest.CookiesUntouched` | utils/withSSRGuest.ts:21 | the guest guard never changes a cookie |
| `SSRGuest.ExactlyOneGuardRunsPage` | utils/withSSRGuest.ts:24 | for any cookies, exactly one of withSSRAuth and withSSRGuest runs its wrapped page |
| `IndexPage.Decision` | pages/index.tsx:53-61 | the page's decision table: a truthy token gives a non-permanent redirect to "/dashboard"; otherwise the result is `{props: {}}` |
| `IndexPage.IsGuestGuard` | pages/index.tsx:46-62 | the home page's check equals withSSRGuest around a page that returns `{props: {}}`, which leaves the cookies unchanged |
| `Api.OnFulfilled` | services/api.ts:40-43 | a successful response is returned unchanged |
| `Api.WithAuthorization` | services/api.ts:110 | the reissued config keeps its url and all its other headers, and its `Authorization` header is "Bearer " + token |
| `Api.Reissues` | services/api.ts:81-83 | every settlement of the success drain is the reissue, with `Authorization: Bearer <token>`, of a queued entry whose config has headers, and there are no more settlements than queued entries |
| `Api.WithHeaders` | services/api.ts:106-108 | the entries kept are exactly the queued entries whose config has headers; the order and the repetitions are stated by `Api.WithHeadersAppend` |
| `Api.WithHeadersAppend` | services/api.ts:106-108 | filtering two queue segments is filtering the first, then the second, so the kept entries stay in queue order, each as often as it was queued |
| `Api.ReissuesAreFilteredQueue` | services/api.ts:81-112 | the success drain is exactly: drop the entries without headers, then reissue each remaining entry once, in queue order, with the new header |
| `Api.Rejections` | services/api.ts:87-89 | the failure drain settles exactly one rejection per queued entry; the k-th rejects the k-th queued request with the refresh error |
| `Api.ReissuesAppend` | services/api.ts:81-83 | draining a queue in two segments equals draining the first, then the second, so the drain keeps queue order |
| `Api.ReissuesCarryToken` | services/api.ts:105-112 | every reissued request carries `Authorization: Bearer <token>` with the one new token |
| `Api.ReissuedIffQueuedWithHeaders` | services/api.ts:105-112 | a request is reissued if and only if it was queued with a config that has headers; a queued entry without headers is never settled |
| `Api.ReissuesInQueueOrder` | services/api.ts:81-84 | when every queued config has headers, each queued request is reissued once, in enqueue order, with the new header |
| `Api.RefreshCoordinator.constructor` | services/api.ts:7-14 | the module starts with the flag down, an empty queue and no refresh calls |
| `Api.ApiClient.constructor` | services/api.ts:17-28 | a new client's instance header is "Bearer " + the token cookie at creation ("Bearer undefined" without one), and its common header is unset |
| `Api.ApiClient.OnRejected` | services/api.ts:44-134 | a non-401 error is rejected unchanged with no state change; an expired-token 401 queues exactly one entry at the end and, only if the flag was down, raises it and records exactly one `POST /refresh` carrying the refresh-token cookie; any other 401 rejects with AuthTokenError on the server with no state change, or signs out once in the browser and rejects with the original error; the single-flight invariant is kept |
| `Api.ApiClient.RefreshSucceeded` | services/api.ts:62-99 | both cookies hold the new pair (30 days, path "/"), the common header is "Bearer " + token while the instance header keeps its old value, the settlements grow by the success drain of the old queue in its order, the queue is empty, the flag is down and the invariant holds |
| `Api.ApiClient.RefreshFailed` | services/api.ts:86-99 | the settlements grow by one rejection per old queue entry in order, the queue is empty, the flag is down, and the browser signs out exactly once while a server context is unchanged |
| `Api.ConcurrentExpiry` | services/api.ts:46-118 | K requests failing with an expired token while no refresh is under way cause exactly one refresh call; on success both cookies hold the new pair, the success drain of those K runs, the common header carries the new token and the instance header is unchanged, and when all K had headers all K are reissued in order with the single new token; on failure all K are rejected with the refresh error and the browser signs out once, its two session cookies destroyed |

## Left out

- The session broadcast between tabs and the decoding of JWT claims have no code in the files modelled. Neither is modelled.
- The server-side permission requirement that pages/metrics.tsx passes to withSSRAuth is ignored by withSSRAuth, so it is not modelled.
- SSRAuth.WithSSRAuth: the wrapped page is modelled by how it ends (its result, AuthTokenError, or another throw). What the page function itself does to the request's cookies is not modelled. For example, pages/metrics.tsx:24-25 calls the API, and a refresh there writes both cookies (services/api.ts:66-74). The cookie claims of `SSRAuth.PageResultPassesThrough`, `SSRAuth.PageFailuresBecomeRedirects` and `SSRAuth.CookiesChangeOnlyOnAuthTokenError` cover the guard's own writes only.
- HTTP transport, axios instances and Promise plumbing are out. A reissued request is a `Reissued(config)` entry in the settlement log. Its own later result is not modelled. Axios's header merge is not computed. The model keeps the instance header and the common header apart, and the instance header is the one a new request sends.
- The `/refresh` call passes through the same interceptor. The model assumes its outcome reaches the refresh handlers as plain success or failure. A 401 on `/refresh` itself is therefore not modelled: with `"token.expired"` it would queue behind itself, and with another code the browser would sign out twice.
- The interceptor reads `error.response.data.code`. A 401 whose response has no `data` would throw a TypeError. The model treats a missing code as "not expired".
- Clients are labelled by a number, and queue entries and settlements carry that label. Supplying distinct labels is the caller's business.
- signIn with its `sessions` response, and the mount effect with its `/me` response, are each one atomic step. What happens between a request and its response is not modelled. The `console.log` in signIn's catch is left out.
- The mount effect runs once per provider in React. The model does not forbid calling `Mount` again.
- Cookie expiry over time is out. maxAge and path are recorded as fields, and the jar is a map with no clock.
- The nookies library (`parseCookies`, `setCookie`, `destroyCookie`) is modelled as map lookup, update and removal.
- React state, JSX, `Router.push` (recorded as a route string) and the form on the home page are left out. The same goes for pages/dashboard.tsx, pages/metrics.tsx, pages/_app.tsx and components/userHasPermissions.tsx.
- The module `services/apiClient`, whose `api` the provider calls, is not part of this model. Its requests are recorded by endpoint, and their outcomes are parameters.
