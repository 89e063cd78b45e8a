/**
 * UseCheckPermissions: the hook that tests `isAuthenticated` and otherwise
 * delegates to validateUserPermissions.
 */
module UseCheckPermissionsHook {
  import opened Wrappers
  import opened AuthContext
  import opened Permissions
  import UsePermissionsHook

  /** The hook: not authenticated denies without consulting the gate. */
  function UseCheckPermissions(context: AuthContextData, permissions: Option<seq<string>>,
                               roles: Option<seq<string>>): (r: bool)
    ensures !context.isAuthenticated ==> !r
    ensures context.isAuthenticated ==>
      r == ValidateUserPermissions(context.user, permissions, roles)
  {
    if !context.isAuthenticated then false
    else ValidateUserPermissions(context.user, permissions, roles)
  }

  /**
   * On the provider's published values the authentication test is redundant:
   * the hook is the gate applied to the bare user.
   */
  lemma AuthenticationTestRedundant(user: Option<User>, permissions: Option<seq<string>>,
                                    roles: Option<seq<string>>)
    ensures UseCheckPermissions(ContextValue(user), permissions, roles) ==
            ValidateUserPermissions(user, permissions, roles)
  {
  }

  /** The two hooks agree on every value the provider can publish. */
  lemma HooksAgree(user: Option<User>, permissions: Option<seq<string>>,
                   roles: Option<seq<string>>)
    ensures UseCheckPermissions(ContextValue(user), permissions, roles) ==
            UsePermissionsHook.UsePermissions(ContextValue(user), permissions, roles)
  {
    UsePermissionsHook.AgreesWithGate(user, permissions, roles);
  }

  /** Off the provider's invariant the two hooks part: this one denies. */
  lemma HooksPartOffInvariant()
    ensures !UseCheckPermissions(AuthContextData(None, true), None, None)
    ensures UsePermissionsHook.UsePermissions(AuthContextData(None, true), None, None)
  {
    UsePermissionsHook.DisagreesOffInvariant();
  }
}
