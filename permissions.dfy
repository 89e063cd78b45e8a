/**
 * validateUserPermissions: the permission and role gate. Permissions combine
 * with AND (`every`), roles with OR (`some`), and a list counts as given
 * whenever it is present, since every array is truthy, even an empty one.
 */
module Permissions {
  import opened Wrappers
  import opened AuthContext

  /** `xs.includes(x)`. */
  function Includes(xs: seq<string>, x: string): (r: bool)
    ensures r <==> x in xs
  {
    xs != [] && (xs[0] == x || Includes(xs[1..], x))
  }

  /** `required.every(p => held.includes(p))`. */
  function EveryIncluded(required: seq<string>, held: seq<string>): (r: bool)
    ensures r <==> forall p :: p in required ==> p in held
  {
    required == [] || (Includes(held, required[0]) && EveryIncluded(required[1..], held))
  }

  /** `required.some(q => held.includes(q))`. */
  function SomeIncluded(required: seq<string>, held: seq<string>): (r: bool)
    ensures r <==> exists q :: q in required && q in held
  {
    required != [] && (Includes(held, required[0]) || SomeIncluded(required[1..], held))
  }

  /**
   * The gate with its early returns: no user denies; a given permission list
   * must be held entirely; a given role list must meet the user's roles at
   * least once; everything else passes.
   */
  function ValidateUserPermissions(user: Option<User>, permissions: Option<seq<string>>,
                                   roles: Option<seq<string>>): (r: bool)
    ensures r <==>
      && user.Some?
      && (permissions.Some? ==> forall p :: p in permissions.value ==> p in user.value.permissions)
      && (roles.Some? ==> exists q :: q in roles.value && q in user.value.roles)
  {
    if user.None? then false
    else if permissions.Some? && !EveryIncluded(permissions.value, user.value.permissions) then false
    else if roles.Some? && !SomeIncluded(roles.value, user.value.roles) then false
    else true
  }

  /** An absent user is denied whatever is required. */
  lemma AbsentUserDenied(permissions: Option<seq<string>>, roles: Option<seq<string>>)
    ensures !ValidateUserPermissions(None, permissions, roles)
  {
  }

  /** With nothing required, every present user passes. */
  lemma NothingRequiredPasses(u: User)
    ensures ValidateUserPermissions(Some(u), None, None)
  {
  }

  /** An empty permission list is satisfied vacuously: it acts as no list. */
  lemma EmptyPermissionsVacuous(user: Option<User>, roles: Option<seq<string>>)
    ensures ValidateUserPermissions(user, Some([]), roles) == ValidateUserPermissions(user, None, roles)
  {
  }

  /** An empty role list can never be met: the gate denies, whoever asks. */
  lemma EmptyRolesDeny(user: Option<User>, permissions: Option<seq<string>>)
    ensures !ValidateUserPermissions(user, permissions, Some([]))
  {
  }

  /** Two lists hold the same entries, in any order and multiplicity. */
  ghost predicate SameEntries(a: seq<string>, b: seq<string>) {
    forall x :: x in a <==> x in b
  }

  /** Two optional lists are both absent, or both present with the same entries. */
  ghost predicate SameOptionalEntries(a: Option<seq<string>>, b: Option<seq<string>>) {
    a.Some? == b.Some? && (a.Some? ==> SameEntries(a.value, b.value))
  }

  /**
   * Only membership matters: reordering or duplicating the required lists or
   * the user's own lists never changes the verdict, as long as each list
   * stays given or not given.
   */
  lemma OnlyMembershipMatters(u1: User, u2: User,
                              p1: Option<seq<string>>, p2: Option<seq<string>>,
                              r1: Option<seq<string>>, r2: Option<seq<string>>)
    requires SameEntries(u1.permissions, u2.permissions) && SameEntries(u1.roles, u2.roles)
    requires SameOptionalEntries(p1, p2) && SameOptionalEntries(r1, r2)
    ensures ValidateUserPermissions(Some(u1), p1, r1) == ValidateUserPermissions(Some(u2), p2, r2)
  {
  }

  /**
   * Granting the user more permissions and roles never takes access away.
   */
  lemma MonotoneInGrants(u: User, v: User, permissions: Option<seq<string>>, roles: Option<seq<string>>)
    requires forall p :: p in u.permissions ==> p in v.permissions
    requires forall q :: q in u.roles ==> q in v.roles
    requires ValidateUserPermissions(Some(u), permissions, roles)
    ensures ValidateUserPermissions(Some(v), permissions, roles)
  {
  }

  /**
   * The gate as the source's own comments read it (utils/validateUserPermissions.ts
   * lines 20 and 29: a list is checked when it is "not undefined or > 0"), taken
   * as: a list is checked only when present AND non-empty.
   */
  ghost function CommentedGate(user: Option<User>, permissions: Option<seq<string>>,
                        roles: Option<seq<string>>): bool
  {
    && user.Some?
    && (permissions.Some? && permissions.value != [] ==>
          forall p :: p in permissions.value ==> p in user.value.permissions)
    && (roles.Some? && roles.value != [] ==>
          exists q :: q in roles.value && q in user.value.roles)
  }

  /**
   * The source's truthiness test agrees with the commented "present and
   * non-empty" test on every input except an empty role list, where the
   * code denies and the commented reading lets a present user through.
   */
  lemma AgreesWithCommentsExceptEmptyRoles(user: Option<User>, permissions: Option<seq<string>>,
                                         roles: Option<seq<string>>)
    ensures roles != Some([]) ==>
      ValidateUserPermissions(user, permissions, roles) == CommentedGate(user, permissions, roles)
    ensures roles == Some([]) ==>
      !ValidateUserPermissions(user, permissions, roles) &&
      CommentedGate(user, permissions, roles) == CommentedGate(user, permissions, None)
  {
  }
}
