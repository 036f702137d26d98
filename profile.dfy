/** The signed-in user's profile as the server returns it, and the role normalisation every consumer applies. */
module Profile {
  import opened Wrappers

  /** The `roles` field: absent, a single role name, or a list of role names. */
  datatype RolesField = NoRoles | ScalarRole(role: string) | RoleList(roles: seq<string>)

  /**
   * A user profile. `permissions` is the server-supplied list, absent when the server sends
   * none; `avatarUrl` is only ever set by the profile page.
   */
  datatype UserProfile = UserProfile(
    id: Option<int>,
    email: string,
    username: string,
    roles: RolesField,
    permissions: Option<seq<string>>,
    avatarUrl: Option<string>
  )

  /** Every role name of a list, as a present value. */
  function Lift(names: seq<string>): (roles: seq<Option<string>>)
    ensures |roles| == |names|
    ensures forall i :: 0 <= i < |names| ==> roles[i] == Some(names[i])
  {
    seq(|names|, i requires 0 <= i < |names| => Some(names[i]))
  }

  /**
   * `Array.isArray(userProfile?.roles) ? userProfile.roles : [userProfile?.roles]`: a list is
   * kept, anything else is wrapped, so a missing profile or missing roles give `[undefined]`.
   */
  function NormalisedRoles(profile: Option<UserProfile>): (roles: seq<Option<string>>)
    ensures profile.None? || profile.value.roles.NoRoles? ==> roles == [None]
    ensures profile.Some? && profile.value.roles.ScalarRole? ==> roles == [Some(profile.value.roles.role)]
    ensures profile.Some? && profile.value.roles.RoleList? ==> roles == Lift(profile.value.roles.roles)
    ensures forall i :: 0 <= i < |roles| && roles[i].Some? ==>
              profile.Some? && !profile.value.roles.NoRoles?
  {
    if profile.None? then [None]
    else match profile.value.roles
      case NoRoles => [None]
      case ScalarRole(r) => [Some(r)]
      case RoleList(rs) => Lift(rs)
  }

  /** The profile's permission list, if it has one. */
  function ApiPermissions(profile: Option<UserProfile>): Option<seq<string>> {
    if profile.Some? then profile.value.permissions else None
  }

  /** Whether the roles field, scalar or list, names `role`. */
  predicate RolesInclude(roles: RolesField, role: string) {
    match roles
    case NoRoles => false
    case ScalarRole(r) => r == role
    case RoleList(rs) => role in rs
  }

  /** Naming a role in the field is the same as finding it among the normalised roles. */
  lemma RolesIncludeIsNormalisedMembership(profile: UserProfile, role: string)
    ensures RolesInclude(profile.roles, role) <==> Some(role) in NormalisedRoles(Some(profile))
  {
    var roles := NormalisedRoles(Some(profile));
    if profile.roles.RoleList? && Some(role) in roles {
      var i :| 0 <= i < |roles| && roles[i] == Some(role);
      assert profile.roles.roles[i] == role;
    }
    if profile.roles.RoleList? && role in profile.roles.roles {
      var i :| 0 <= i < |profile.roles.roles| && profile.roles.roles[i] == role;
      assert roles[i] == Some(role);
    }
  }
}
