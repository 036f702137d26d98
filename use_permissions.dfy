/**
 * The permission hook: checks against the server-supplied list only, with no fallback to
 * the role defaults.
 */
module UsePermissions {
  import opened Wrappers
  import opened JsArray
  import opened Permissions
  import opened Profile
  import PermissionGuard

  /** `hasPermission(permission)` of the hook. */
  function HookHasPermission(userProfile: Option<UserProfile>, permission: string): (b: bool)
    ensures userProfile.None? ==> !b
    ensures ApiPermissions(userProfile).None? ==> !b
    ensures ApiPermissions(userProfile).Some? ==> (b <==> permission in ApiPermissions(userProfile).value)
  {
    if userProfile.None? then false
    else if userProfile.value.permissions.Some? then permission in userProfile.value.permissions.value
    else false
  }

  /** `hasAnyPermission(permissions)`: some listed permission passes; false for an empty list. */
  function HasAnyPermission(userProfile: Option<UserProfile>, permissions: seq<string>): (b: bool)
    ensures b <==> exists i :: 0 <= i < |permissions| && HookHasPermission(userProfile, permissions[i])
    ensures permissions == [] ==> !b
  {
    Any(permissions, p => HookHasPermission(userProfile, p))
  }

  /** `hasAllPermissions(permissions)`: every listed permission passes; true for an empty list. */
  function HasAllPermissions(userProfile: Option<UserProfile>, permissions: seq<string>): (b: bool)
    ensures b <==> forall i :: 0 <= i < |permissions| ==> HookHasPermission(userProfile, permissions[i])
    ensures permissions == [] ==> b
  {
    Every(permissions, p => HookHasPermission(userProfile, p))
  }

  /** `userProfile?.permissions || []` */
  function PermissionsList(userProfile: Option<UserProfile>): (ps: seq<string>)
    ensures ApiPermissions(userProfile).Some? ==> ps == ApiPermissions(userProfile).value
    ensures ApiPermissions(userProfile).None? ==> ps == []
  {
    if userProfile.Some? && userProfile.value.permissions.Some? then userProfile.value.permissions.value else []
  }

  /** The hook's check is exactly membership in the list it exposes, and the catalog's API check. */
  lemma HookIsListMembership(userProfile: Option<UserProfile>, permission: string)
    ensures HookHasPermission(userProfile, permission) <==> permission in PermissionsList(userProfile)
    ensures HookHasPermission(userProfile, permission) == HasPermissionFromApi(ApiPermissions(userProfile), permission)
  {
  }

  /** With every permission passing, the all-check implies the any-check on a non-empty list. */
  lemma AllImpliesAny(userProfile: Option<UserProfile>, permissions: seq<string>)
    requires permissions != [] && HasAllPermissions(userProfile, permissions)
    ensures HasAnyPermission(userProfile, permissions)
  {
    assert HookHasPermission(userProfile, permissions[0]);
  }

  /** Where the profile has a list, the hook and the guard give the same answer. */
  lemma HookAgreesWithGuardOnlyWithList(userProfile: Option<UserProfile>, permission: string, minRole: Option<string>)
    requires permission != "" && ApiPermissions(userProfile).Some?
    ensures HookHasPermission(userProfile, permission) == PermissionGuard.HasAccess(userProfile, Some(permission), minRole)
  {
  }

  /** Without a list they differ: an administrator passes the guard's `user:delete` check and fails the hook's. */
  lemma HookHasNoRoleFallback()
    ensures var admin := Some(UserProfile(None, "root@example.com", "root", RoleList([ADMIN]), None, None));
      !HookHasPermission(admin, "user:delete") && PermissionGuard.HasAccess(admin, Some("user:delete"), None)
  {
    var admin := Some(UserProfile(None, "root@example.com", "root", RoleList([ADMIN]), None, None));
    assert AsList(Many(NormalisedRoles(admin)))[0] == Some(ADMIN);
    assert Grants(Some(ADMIN), "user:delete");
  }
}
