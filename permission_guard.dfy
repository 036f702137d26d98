/**
 * The guard that shows its children only when the signed-in user passes a permission
 * requirement or a minimum-role requirement. A server-supplied permission list is
 * authoritative when present, even when empty; otherwise the roles decide.
 */
module PermissionGuard {
  import opened Wrappers
  import opened Permissions
  import opened Profile

  /**
   * The access decision. A requirement given as the empty string counts as absent; a
   * permission requirement, when present, decides alone and the minimum role is ignored.
   */
  function HasAccess(userProfile: Option<UserProfile>, permission: Option<string>, minRole: Option<string>): (granted: bool)
    ensures !Truthy(permission) && !Truthy(minRole) ==> granted
    ensures Truthy(permission) && ApiPermissions(userProfile).Some? ==>
              granted == HasPermissionFromApi(ApiPermissions(userProfile), permission.value)
    ensures Truthy(permission) && ApiPermissions(userProfile).None? ==>
              granted == HasPermission(Many(NormalisedRoles(userProfile)), permission.value)
    ensures !Truthy(permission) && Truthy(minRole) ==>
              granted == HasMinimumRole(Many(NormalisedRoles(userProfile)), minRole.value)
    ensures userProfile.None? && (Truthy(permission) || Truthy(minRole)) ==> !granted
  {
    var userRoles := Many(NormalisedRoles(userProfile));
    NoProfileMeetsNothing(OrElse(minRole, ""), OrElse(permission, ""));
    if Truthy(permission) then
      if ApiPermissions(userProfile).Some? then permission.value in ApiPermissions(userProfile).value
      else HasPermission(userRoles, permission.value)
    else if Truthy(minRole) then HasMinimumRole(userRoles, minRole.value)
    else true
  }

  /** Without a profile the normalised roles are `[undefined]`, which meets no requirement. */
  lemma NoProfileMeetsNothing(minimumRole: string, permission: string)
    ensures !HasMinimumRole(Many(NormalisedRoles(None)), minimumRole)
    ensures !HasPermission(Many(NormalisedRoles(None)), permission)
  {
    var roles := Many(NormalisedRoles(None));
    assert AsList(roles) == [None];
    UnknownRolesGrantNothing(roles, minimumRole, permission);
  }

  /** What the guard renders. */
  datatype Rendered<T> = Children(children: T) | Fallback(fallback: T) | Nothing

  /** Granted renders the children; denied renders the fallback, or nothing without one. */
  function Render<T>(userProfile: Option<UserProfile>, permission: Option<string>, minRole: Option<string>,
                     children: T, fallback: Option<T>): (out: Rendered<T>)
    ensures out.Children? <==> HasAccess(userProfile, permission, minRole)
    ensures out.Children? ==> out.children == children
    ensures out.Fallback? ==> fallback == Some(out.fallback)
    ensures out.Nothing? <==> !HasAccess(userProfile, permission, minRole) && fallback.None?
  {
    if !HasAccess(userProfile, permission, minRole) then
      if fallback.Some? then Fallback(fallback.value) else Nothing
    else Children(children)
  }

  /** With no requirement at all, everyone, signed in or not, is granted access. */
  lemma NoRequirementGrants(userProfile: Option<UserProfile>, permission: Option<string>, minRole: Option<string>)
    requires !Truthy(permission) && !Truthy(minRole)
    ensures HasAccess(userProfile, permission, minRole)
  {
  }

  /**
   * With a permission requirement and a profile permission list, access is membership in the
   * list whatever the roles are; an empty list denies every permission.
   */
  lemma ApiListIsAuthoritative(userProfile: Option<UserProfile>, permission: Option<string>, minRole: Option<string>)
    requires Truthy(permission) && ApiPermissions(userProfile).Some?
    ensures HasAccess(userProfile, permission, minRole) <==> permission.value in ApiPermissions(userProfile).value
    ensures HasAccess(userProfile, permission, minRole) ==
              HasPermissionFromApi(ApiPermissions(userProfile), permission.value)
    ensures ApiPermissions(userProfile).value == [] ==> !HasAccess(userProfile, permission, minRole)
  {
  }

  /**
   * With a permission requirement and no list, the role defaults decide; a scalar role is
   * checked exactly as the bare role would be.
   */
  lemma RolesDecideWithoutList(userProfile: Option<UserProfile>, permission: Option<string>, minRole: Option<string>)
    requires Truthy(permission) && ApiPermissions(userProfile).None?
    ensures HasAccess(userProfile, permission, minRole) == HasPermission(Many(NormalisedRoles(userProfile)), permission.value)
    ensures userProfile.Some? && userProfile.value.roles.ScalarRole? ==>
              HasAccess(userProfile, permission, minRole) == HasPermission(Bare(Some(userProfile.value.roles.role)), permission.value)
  {
  }

  /** With only a minimum role, access is the minimum-role check over the normalised roles. */
  lemma MinRoleOnly(userProfile: Option<UserProfile>, permission: Option<string>, minRole: Option<string>)
    requires !Truthy(permission) && Truthy(minRole)
    ensures HasAccess(userProfile, permission, minRole) == HasMinimumRole(Many(NormalisedRoles(userProfile)), minRole.value)
  {
  }

  /** When a permission is required, the minimum role makes no difference. */
  lemma PermissionOverridesMinRole(userProfile: Option<UserProfile>, permission: Option<string>,
                                   minRole: Option<string>, otherMinRole: Option<string>)
    requires Truthy(permission)
    ensures HasAccess(userProfile, permission, minRole) == HasAccess(userProfile, permission, otherMinRole)
  {
  }

  /** Without a profile every non-empty requirement is denied. */
  lemma NoProfileDenied(permission: Option<string>, minRole: Option<string>)
    requires Truthy(permission) || Truthy(minRole)
    ensures !HasAccess(None, permission, minRole)
  {
  }

  /** A user with the STAFF role and no list passes a `report:create` requirement but not `user:create`. */
  lemma StaffDefaults()
    ensures var staff := Some(UserProfile(None, "staff@example.com", "staff", ScalarRole(STAFF), None, None));
      HasAccess(staff, Some("report:create"), None) && !HasAccess(staff, Some("user:create"), None)
  {
    var roles := Many(NormalisedRoles(Some(UserProfile(None, "staff@example.com", "staff", ScalarRole(STAFF), None, None))));
    assert AsList(roles)[0] == Some(STAFF);
    assert Grants(Some(STAFF), "report:create");
  }
}
