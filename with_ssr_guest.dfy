/**
 * withSSRGuest: the guard for pages meant for visitors without a session. A
 * truthy token cookie sends the visitor to "/dashboard"; otherwise the page
 * runs and whatever it does, throwing included, is the guard's outcome.
 */
module SSRGuest {
  import opened Cookies
  import opened NextPages
  import SSRAuth

  function WithSSRGuest<P>(cookies: Jar, page: PageOutcome<P>): GuardRun<P> {
    if HasToken(cookies) then GuardRun(Returns(Redirect(DASHBOARD_ROUTE, false)), cookies, false)
    else GuardRun(page, cookies, true)
  }

  /** A truthy token redirects to "/dashboard", not permanently, and the
      page is not run. */
  lemma TokenRedirectsToDashboard<P>(cookies: Jar, page: PageOutcome<P>)
    requires HasToken(cookies)
    ensures WithSSRGuest(cookies, page) == GuardRun(Returns(Redirect("/dashboard", false)), cookies, false)
  {
  }

  /** Without a token the page's outcome is the guard's, unchanged. */
  lemma NoTokenRunsPage<P>(cookies: Jar, page: PageOutcome<P>)
    requires !HasToken(cookies)
    ensures WithSSRGuest(cookies, page).outcome == page && WithSSRGuest(cookies, page).ranPage
  {
  }

  /** The guard never modifies a cookie. */
  lemma CookiesUntouched<P>(cookies: Jar, page: PageOutcome<P>)
    ensures WithSSRGuest(cookies, page).cookies == cookies
  {
  }

  /** For any cookies, exactly one of the two guards runs its page. */
  lemma ExactlyOneGuardRunsPage<P, Q>(cookies: Jar, authPage: PageOutcome<P>, guestPage: PageOutcome<Q>)
    ensures SSRAuth.WithSSRAuth(cookies, authPage).ranPage != WithSSRGuest(cookies, guestPage).ranPage
  {
  }
}
