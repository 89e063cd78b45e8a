/**
 * What a server-side props function of a page produces, and what one guarded
 * call of it does.
 */
module NextPages {
  import opened Cookies

  /** GetServerSidePropsResult: a redirect descriptor or the page's props. */
  datatype PageResult<P> = Redirect(destination: string, permanent: bool) | Props(props: P)

  /** How a call of a page's props function ends: returning, or throwing
      AuthTokenError, or throwing anything else. */
  datatype PageOutcome<P> = Returns(result: PageResult<P>) | ThrowsAuthTokenError | ThrowsOther

  /** One guarded call: how it ends, the request's cookies afterwards, and
      whether the wrapped props function was called. */
  datatype GuardRun<P> = GuardRun(outcome: PageOutcome<P>, cookies: Jar, ranPage: bool)

  /** The unauthenticated landing route (the login page). */
  const LOGIN_ROUTE := "/"
  /** The authenticated landing route. */
  const DASHBOARD_ROUTE := "/dashboard"
  /** The generic error route. */
  const ERROR_ROUTE := "/error"
}
