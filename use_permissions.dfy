/**
 * UsePermissions: the hook that repeats the gate's tests on the context's
 * `isAuthenticated` flag and its optional user.
 */
module UsePermissionsHook {
  import opened Wrappers
  import opened AuthContext
  import opened Permissions

  /** `user?.permissions`: an absent user holds nothing, so `includes` is falsy. */
  function HeldPermissions(user: Option<User>): seq<string> {
    if user.Some? then user.value.permissions else []
  }

  /** `user?.roles`, read the same way. */
  function HeldRoles(user: Option<User>): seq<string> {
    if user.Some? then user.value.roles else []
  }

  /**
   * The hook: not authenticated denies; a given permission list must be held
   * entirely; a given role list must be met at least once; else it passes.
   */
  function UsePermissions(context: AuthContextData, permissions: Option<seq<string>>,
                          roles: Option<seq<string>>): (r: bool)
    ensures r <==>
      && context.isAuthenticated
      && (permissions.Some? ==>
            forall p :: p in permissions.value ==> context.user.Some? && p in context.user.value.permissions)
      && (roles.Some? ==>
            exists q :: q in roles.value && context.user.Some? && q in context.user.value.roles)
  {
    if !context.isAuthenticated then false
    else if permissions.Some? && !EveryIncluded(permissions.value, HeldPermissions(context.user)) then false
    else if roles.Some? && !SomeIncluded(roles.value, HeldRoles(context.user)) then false
    else true
  }

  /** Not authenticated denies, whatever the lists are. */
  lemma UnauthenticatedDenied(user: Option<User>, permissions: Option<seq<string>>,
                              roles: Option<seq<string>>)
    ensures !UsePermissions(AuthContextData(user, false), permissions, roles)
  {
  }

  /**
   * On every value the provider publishes (`isAuthenticated == !!user`) the
   * hook is the gate on the same user, empty role list included.
   */
  lemma AgreesWithGate(user: Option<User>, permissions: Option<seq<string>>,
                       roles: Option<seq<string>>)
    ensures UsePermissions(ContextValue(user), permissions, roles) ==
            ValidateUserPermissions(user, permissions, roles)
  {
  }

  /**
   * The agreement needs the provider's invariant: on a context that claims
   * authentication without a user, the hook lets an unconstrained check pass
   * where the gate denies.
   */
  lemma DisagreesOffInvariant()
    ensures UsePermissions(AuthContextData(None, true), None, None)
    ensures !ValidateUserPermissions(None, None, None)
  {
  }
}
