/**
 * withSSRAuth: the guard for pages that need a signed-in user. It checks only
 * that the token cookie is truthy, then runs the page and turns its failures
 * into redirects; an AuthTokenError also destroys both session cookies.
 */
module SSRAuth {
  import opened Cookies
  import opened NextPages

  /** The guard's decision and its effect on the request's cookies. */
  function WithSSRAuth<P>(cookies: Jar, page: PageOutcome<P>): GuardRun<P> {
    if !HasToken(cookies) then
      GuardRun(Returns(Redirect(LOGIN_ROUTE, false)), cookies, false)
    else
      match page
      case Returns(result) => GuardRun(Returns(result), cookies, true)
      case ThrowsAuthTokenError => GuardRun(Returns(Redirect(LOGIN_ROUTE, false)), ClearSession(cookies), true)
      case ThrowsOther => GuardRun(Returns(Redirect(ERROR_ROUTE, false)), cookies, true)
  }

  /**
   * The guard on a request context: the same decision, with the two cookie
   * deletions applied to the context in place.
   */
  method RunWithSSRAuth<P>(ctx: Context, page: PageOutcome<P>) returns (outcome: PageOutcome<P>, ranPage: bool)
    modifies ctx
    ensures outcome == WithSSRAuth(old(ctx.cookies), page).outcome
    ensures ranPage == WithSSRAuth(old(ctx.cookies), page).ranPage
    ensures ctx.cookies == WithSSRAuth(old(ctx.cookies), page).cookies
    ensures ctx.routes == old(ctx.routes)
  {
    var token := Lookup(ctx.cookies, TOKEN_COOKIE);
    if !Truthy(token) {
      return Returns(Redirect(LOGIN_ROUTE, false)), false;
    }
    ranPage := true;
    match page
    case Returns(result) =>
      outcome := Returns(result);
    case ThrowsAuthTokenError =>
      ctx.Destroy(TOKEN_COOKIE);
      ctx.Destroy(REFRESH_TOKEN_COOKIE);
      outcome := Returns(Redirect(LOGIN_ROUTE, false));
    case ThrowsOther =>
      outcome := Returns(Redirect(ERROR_ROUTE, false));
  }

  /** Without a truthy token the guard redirects to "/" (not permanently),
      never runs the page, and leaves the cookies alone. */
  lemma NoTokenRedirectsToLogin<P>(cookies: Jar, page: PageOutcome<P>)
    requires !HasToken(cookies)
    ensures WithSSRAuth(cookies, page) == GuardRun(Returns(Redirect("/", false)), cookies, false)
  {
  }

  /** With a token, whatever the page returns is returned unchanged, and the
      guard itself writes no cookie. */
  lemma PageResultPassesThrough<P>(cookies: Jar, result: PageResult<P>)
    requires HasToken(cookies)
    ensures WithSSRAuth(cookies, Returns(result)) == GuardRun(Returns(result), cookies, true)
  {
  }

  /** An AuthTokenError from the page destroys exactly the two session
      cookies and redirects to "/"; any other failure redirects to "/error". */
  lemma PageFailuresBecomeRedirects<P>(cookies: Jar)
    requires HasToken(cookies)
    ensures WithSSRAuth<P>(cookies, ThrowsAuthTokenError) ==
            GuardRun(Returns(Redirect("/", false)), ClearSession(cookies), true)
    ensures WithSSRAuth<P>(cookies, ThrowsOther) == GuardRun(Returns(Redirect("/error", false)), cookies, true)
  {
  }

  /** The guard never throws: every page failure ends as a redirect. */
  lemma NeverThrows<P>(cookies: Jar, page: PageOutcome<P>)
    ensures WithSSRAuth(cookies, page).outcome.Returns?
  {
  }

  /** The guard itself writes a cookie only when a token was present and the
      page threw AuthTokenError, and then only to clear the session. */
  lemma CookiesChangeOnlyOnAuthTokenError<P>(cookies: Jar, page: PageOutcome<P>)
    ensures WithSSRAuth(cookies, page).cookies != cookies ==>
      HasToken(cookies) && page.ThrowsAuthTokenError?
    ensures WithSSRAuth(cookies, page).cookies == cookies ||
            WithSSRAuth(cookies, page).cookies == ClearSession(cookies)
  {
  }

  /** Every redirect the guard makes itself is non-permanent: a permanent one
      can only be the page's own result, passed through. */
  lemma OwnRedirectsNonPermanent<P>(cookies: Jar, page: PageOutcome<P>)
    requires WithSSRAuth(cookies, page).outcome.Returns?
    requires WithSSRAuth(cookies, page).outcome.result.Redirect?
    requires WithSSRAuth(cookies, page).outcome.result.permanent
    ensures page == WithSSRAuth(cookies, page).outcome
  {
  }

  /** The decision reads nothing but the token's truthiness (no permission or
      role check): two requests that agree on it get the same verdict. */
  lemma DependsOnlyOnTokenPresence<P>(c1: Jar, c2: Jar, page: PageOutcome<P>)
    requires HasToken(c1) == HasToken(c2)
    ensures WithSSRAuth(c1, page).outcome == WithSSRAuth(c2, page).outcome
    ensures WithSSRAuth(c1, page).ranPage == WithSSRAuth(c2, page).ranPage
  {
  }

  /** After an AuthTokenError the cookies hold no token, so the next request
      is redirected to "/" at once instead of running the page again. */
  lemma AuthTokenErrorEndsSession<P>(cookies: Jar, next: PageOutcome<P>)
    requires HasToken(cookies)
    ensures !WithSSRAuth(WithSSRAuth<P>(cookies, ThrowsAuthTokenError).cookies, next).ranPage
  {
    ClearSessionRemoves(cookies);
  }
}
