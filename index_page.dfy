/**
 * The home page's server-side props: a guest check written inline.
 */
module IndexPage {
  import opened Cookies
  import opened NextPages
  import SSRGuest

  /** The home page has no props: `{}`. */
  datatype EmptyProps = EmptyProps

  /** A truthy token redirects to "/dashboard"; otherwise `{props: {}}`. */
  function GetServerSideProps(cookies: Jar): PageOutcome<EmptyProps> {
    if HasToken(cookies) then Returns(Redirect(DASHBOARD_ROUTE, false))
    else Returns(Props(EmptyProps))
  }

  /** The possible results: a non-permanent redirect to "/dashboard" exactly
      when the token is truthy, the empty props otherwise; never a throw. */
  lemma Decision(cookies: Jar)
    ensures HasToken(cookies) ==> GetServerSideProps(cookies) == Returns(Redirect("/dashboard", false))
    ensures !HasToken(cookies) ==> GetServerSideProps(cookies) == Returns(Props(EmptyProps))
  {
  }

  /** The inline check is withSSRGuest around a page that returns `{props: {}}`,
      which reads the cookies and never changes them. */
  lemma IsGuestGuard(cookies: Jar)
    ensures GetServerSideProps(cookies) == SSRGuest.WithSSRGuest(cookies, Returns(Props(EmptyProps))).outcome
    ensures SSRGuest.WithSSRGuest(cookies, Returns(Props(EmptyProps))).cookies == cookies
  {
  }
}
