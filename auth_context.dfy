/**
 * The session held by the authentication provider: sign-in, sign-out, the
 * mount-time rehydration from the stored token, and the published value.
 */
module AuthContext {
  import opened Wrappers
  import opened Cookies

  /** The signed-in user: the claims the gate reads. */
  datatype User = User(email: string, permissions: seq<string>, roles: seq<string>)

  datatype Credentials = Credentials(email: string, password: string)

  /** The outcome of `POST sessions`: its body, or a rejection. */
  datatype SessionsResponse =
    | SessionsOk(token: string, refreshToken: string, permissions: seq<string>, roles: seq<string>)
    | SessionsFailed

  /** The outcome of `GET /me`: its body, or a rejection. */
  datatype MeResponse =
    | MeOk(email: string, permissions: seq<string>, roles: seq<string>)
    | MeFailed

  /** The value the provider publishes to its consumers. */
  datatype AuthContextData = AuthContextData(user: Option<User>, isAuthenticated: bool)

  /** The endpoints the provider calls through its API client. */
  const SESSIONS_ENDPOINT := "sessions"
  const ME_ENDPOINT := "/me"
  /** The route signIn navigates to, trailing space included. */
  const SIGN_IN_ROUTE := "/dashboard "
  /** The route signOut navigates to. */
  const SIGN_OUT_ROUTE := "/"

  /** `!!user`. */
  function IsAuthenticated(user: Option<User>): bool {
    user.Some?
  }

  /** The provider's published value for a given user state. */
  function ContextValue(user: Option<User>): (d: AuthContextData)
    ensures d.user == user
    ensures d.isAuthenticated <==> user.Some?
  {
    AuthContextData(user, IsAuthenticated(user))
  }

  /**
   * signOut: destroys exactly the two session cookies of the browser, leaves
   * every other cookie alone and navigates to "/". It does not touch any
   * provider's user state.
   */
  method SignOut(browser: Context)
    modifies browser
    ensures browser.cookies == ClearSession(old(browser.cookies))
    ensures browser.routes == old(browser.routes) + [SIGN_OUT_ROUTE]
  {
    browser.Destroy(TOKEN_COOKIE);
    browser.Destroy(REFRESH_TOKEN_COOKIE);
    browser.Push(SIGN_OUT_ROUTE);
  }

  /**
   * AuthProvider's state: the `user` state variable, the common default
   * `Authorization` header of the API client it calls, and the log of the
   * requests it has issued. The cookies and the router are the browser's.
   */
  class AuthProvider {
    const browser: Context
    var user: Option<User>
    /** `api.defaults.headers.common["Authorization"]`; None until signIn sets it. */
    var commonAuth: Option<string>
    var requests: seq<string>

    constructor (browser: Context)
      ensures this.browser == browser
      ensures user == None && commonAuth == None && requests == []
    {
      this.browser := browser;
      user := None;
      commonAuth := None;
      requests := [];
    }

    /** The value handed to the context consumers. */
    function Value(): (d: AuthContextData)
      reads this
      ensures d.user == user
      ensures d.isAuthenticated <==> user.Some?
    {
      ContextValue(user)
    }

    /**
     * The mount effect together with the outcome of the `/me` request it may
     * issue. Without a truthy token cookie nothing is requested and nothing
     * changes; with one, a successful `/me` sets the user from the response,
     * and a failed one signs out, but only in the browser.
     */
    method Mount(me: MeResponse)
      modifies this, browser
      ensures commonAuth == old(commonAuth)
      ensures !HasToken(old(browser.cookies)) ==>
        user == old(user) && requests == old(requests) &&
        browser.cookies == old(browser.cookies) && browser.routes == old(browser.routes)
      ensures HasToken(old(browser.cookies)) ==> requests == old(requests) + [ME_ENDPOINT]
      ensures HasToken(old(browser.cookies)) && me.MeOk? ==>
        user == Some(User(me.email, me.permissions, me.roles)) &&
        browser.cookies == old(browser.cookies) && browser.routes == old(browser.routes)
      ensures HasToken(old(browser.cookies)) && me.MeFailed? ==> user == old(user)
      ensures HasToken(old(browser.cookies)) && me.MeFailed? && browser.isBrowser ==>
        browser.cookies == ClearSession(old(browser.cookies)) &&
        browser.routes == old(browser.routes) + [SIGN_OUT_ROUTE]
      ensures HasToken(old(browser.cookies)) && me.MeFailed? && !browser.isBrowser ==>
        browser.cookies == old(browser.cookies) && browser.routes == old(browser.routes)
    {
      var token := Lookup(browser.cookies, TOKEN_COOKIE);
      if Truthy(token) {
        requests := requests + [ME_ENDPOINT];
        match me
        case MeOk(email, permissions, roles) =>
          user := Some(User(email, permissions, roles));
        case MeFailed =>
          if browser.isBrowser {
            SignOut(browser);
          }
      }
    }

    /**
     * signIn together with the outcome of its `sessions` request. On success
     * both cookies are stored from the response, the user is built from the
     * credentials' email and the response's permissions and roles, the
     * common default header carries the new token, and the router goes to
     * "/dashboard ". A failed request is caught: only the request was made.
     */
    method SignIn(credentials: Credentials, response: SessionsResponse)
      modifies this, browser
      ensures requests == old(requests) + [SESSIONS_ENDPOINT]
      ensures response.SessionsOk? ==>
        && browser.cookies == StoreSession(old(browser.cookies), response.token, response.refreshToken)
        && user == Some(User(credentials.email, response.permissions, response.roles))
        && commonAuth == Some(Bearer(response.token))
        && browser.routes == old(browser.routes) + [SIGN_IN_ROUTE]
        && Value().isAuthenticated
      ensures response.SessionsFailed? ==>
        && browser.cookies == old(browser.cookies) && browser.routes == old(browser.routes)
        && user == old(user) && commonAuth == old(commonAuth)
    {
      requests := requests + [SESSIONS_ENDPOINT];
      match response
      case SessionsOk(token, refreshToken, permissions, roles) =>
        browser.Set(TOKEN_COOKIE, token, SESSION_MAX_AGE, SESSION_PATH);
        browser.Set(REFRESH_TOKEN_COOKIE, refreshToken, SESSION_MAX_AGE, SESSION_PATH);
        user := Some(User(credentials.email, permissions, roles));
        commonAuth := Some(Bearer(token));
        browser.Push(SIGN_IN_ROUTE);
      case SessionsFailed =>
    }
  }
}
