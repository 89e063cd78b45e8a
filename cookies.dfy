/**
 * The cookie jar as the application sees it through nookies (parseCookies,
 * setCookie, destroyCookie), and the execution context that owns a jar: the
 * browser (document cookies and the router) or one server request (`ctx`).
 */
module Cookies {
  import opened Wrappers

  /** The access-token cookie. */
  const TOKEN_COOKIE := "nextauth.token"
  /** The refresh-token cookie. */
  const REFRESH_TOKEN_COOKIE := "nextauth.refreshToken"
  /** `60 * 60 * 24 * 30`: thirty days, in seconds, as every caller passes it. */
  const SESSION_MAX_AGE := 60 * 60 * 24 * 30
  /** Every session cookie is set for all paths. */
  const SESSION_PATH := "/"

  /** One stored cookie: its value and the options it was set with. */
  datatype Cookie = Cookie(value: string, maxAge: int, path: string)

  type Jar = map<string, Cookie>

  /** `parseCookies(ctx)[name]`: the value, or `undefined` when absent. */
  function Lookup(jar: Jar, name: string): (v: Option<string>)
    ensures v.Some? <==> name in jar
    ensures v.Some? ==> v.value == jar[name].value
  {
    if name in jar then Some(jar[name].value) else None
  }

  /** JavaScript truthiness of a `string | undefined`: present and not "". */
  predicate Truthy(v: Option<string>) {
    v.Some? && v.value != ""
  }

  /** The guards' and the mount effect's test `if (cookies["nextauth.token"])`. */
  predicate HasToken(jar: Jar) {
    Truthy(Lookup(jar, TOKEN_COOKIE))
  }

  /** `setCookie(ctx, name, value, {maxAge, path})`: replaces that one cookie. */
  function SetCookie(jar: Jar, name: string, value: string, maxAge: int, path: string): (r: Jar)
    ensures r.Keys == jar.Keys + {name}
    ensures r[name] == Cookie(value, maxAge, path)
    ensures forall k :: k in jar && k != name ==> r[k] == jar[k]
  {
    jar[name := Cookie(value, maxAge, path)]
  }

  /** `destroyCookie(ctx, name)`: removes that one cookie. */
  function DestroyCookie(jar: Jar, name: string): (r: Jar)
    ensures r.Keys == jar.Keys - {name}
    ensures forall k :: k in r ==> r[k] == jar[k]
  {
    jar - {name}
  }

  /** The two session cookies written with the options every writer uses. */
  function StoreSession(jar: Jar, token: string, refreshToken: string): Jar {
    SetCookie(SetCookie(jar, TOKEN_COOKIE, token, SESSION_MAX_AGE, SESSION_PATH),
              REFRESH_TOKEN_COOKIE, refreshToken, SESSION_MAX_AGE, SESSION_PATH)
  }

  /** The two session cookies destroyed, as signOut and withSSRAuth do. */
  function ClearSession(jar: Jar): Jar {
    DestroyCookie(DestroyCookie(jar, TOKEN_COOKIE), REFRESH_TOKEN_COOKIE)
  }

  /** Writing the session stores exactly the two cookies, with a thirty-day
      lifetime on path "/", and leaves every other cookie as it was. */
  lemma StoreSessionWrites(jar: Jar, token: string, refreshToken: string)
    ensures StoreSession(jar, token, refreshToken).Keys == jar.Keys + {TOKEN_COOKIE, REFRESH_TOKEN_COOKIE}
    ensures StoreSession(jar, token, refreshToken)[TOKEN_COOKIE] == Cookie(token, 2592000, "/")
    ensures StoreSession(jar, token, refreshToken)[REFRESH_TOKEN_COOKIE] == Cookie(refreshToken, 2592000, "/")
    ensures forall k :: k in jar && k != TOKEN_COOKIE && k != REFRESH_TOKEN_COOKIE ==>
      StoreSession(jar, token, refreshToken)[k] == jar[k]
  {
  }

  /** Clearing the session removes exactly the two cookies and keeps the rest. */
  lemma ClearSessionRemoves(jar: Jar)
    ensures ClearSession(jar).Keys == jar.Keys - {TOKEN_COOKIE, REFRESH_TOKEN_COOKIE}
    ensures forall k :: k in ClearSession(jar) ==> ClearSession(jar)[k] == jar[k]
    ensures !HasToken(ClearSession(jar))
  {
  }

  /** Clearing after storing forgets the stored session entirely: the jar is
      the one a plain clear of the original would give. */
  lemma ClearAfterStore(jar: Jar, token: string, refreshToken: string)
    ensures ClearSession(StoreSession(jar, token, refreshToken)) == ClearSession(jar)
  {
    var a := ClearSession(StoreSession(jar, token, refreshToken));
    var b := ClearSession(jar);
    assert a.Keys == b.Keys;
    forall k | k in a ensures a[k] == b[k] {
    }
  }

  /** `"Bearer " + value` as a template literal writes it: an absent value
      prints as "undefined". */
  function BearerOf(v: Option<string>): string {
    "Bearer " + (if v.Some? then v.value else "undefined")
  }

  /** The `Authorization` header value for a known token. */
  function Bearer(token: string): string {
    BearerOf(Some(token))
  }

  /**
   * An execution context: its cookie jar and, for the browser, the routes
   * pushed on the router. `isBrowser` stands for `typeof window !== "undefined"`.
   */
  class Context {
    const isBrowser: bool
    var cookies: Jar
    var routes: seq<string>

    constructor (isBrowser: bool, cookies: Jar)
      ensures this.isBrowser == isBrowser && this.cookies == cookies && routes == []
    {
      this.isBrowser := isBrowser;
      this.cookies := cookies;
      routes := [];
    }

    /** `destroyCookie(ctx, name)` on this context. */
    method Destroy(name: string)
      modifies this
      ensures cookies == DestroyCookie(old(cookies), name)
      ensures routes == old(routes)
    {
      cookies := DestroyCookie(cookies, name);
    }

    /** `setCookie(ctx, name, value, {maxAge, path})` on this context. */
    method Set(name: string, value: string, maxAge: int, path: string)
      modifies this
      ensures cookies == SetCookie(old(cookies), name, value, maxAge, path)
      ensures routes == old(routes)
    {
      cookies := SetCookie(cookies, name, value, maxAge, path);
    }

    /** `Router.push(route)`. */
    method Push(route: string)
      modifies this
      ensures routes == old(routes) + [route]
      ensures cookies == old(cookies)
    {
      routes := routes + [route];
    }
  }
}
