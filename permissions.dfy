/**
 * The static role catalog (a rank per role and a default permission list per role) and the
 * pure predicates the console evaluates over it. Role names are plain strings: the catalog
 * is a partial map, and a name it does not know, or `undefined` (None), has no rank and no
 * permissions.
 */
module Permissions {
  import opened Wrappers
  import opened JsArray

  const ADMIN: string := "ROLE_ADMIN"
  const MANAGER: string := "ROLE_MANAGER"
  const STAFF: string := "ROLE_STAFF"
  const USER: string := "ROLE_USER"

  /** The rank of each known role; a higher rank is more privileged. */
  const RoleHierarchy: map<string, nat> := map[ADMIN := 4, MANAGER := 3, STAFF := 2, USER := 1]

  /** The default permissions of each known role. */
  const RolePermissions: map<string, seq<string>> := map[
    ADMIN := [
      "user:read", "user:create", "user:update", "user:delete",
      "report:read", "report:create", "report:update", "report:delete", "report:export",
      "order:read", "order:create", "order:update", "order:delete", "order:approve",
      "audit:read", "system:config", "role:manage"
    ],
    MANAGER := [
      "user:read", "user:create", "user:update",
      "report:read", "report:create", "report:update", "report:export",
      "order:read", "order:create", "order:update", "order:approve"
    ],
    STAFF := [
      "user:read",
      "report:read", "report:create",
      "order:read", "order:create"
    ],
    USER := [
      "user:read"
    ]
  ]

  /** The display label of each known role. */
  const RoleLabels: map<string, string> := map[
    ADMIN := "Quản trị viên",
    MANAGER := "Quản lý",
    STAFF := "Nhân viên",
    USER := "Người dùng"
  ]

  /**
   * What the predicates accept as a role argument: one bare role or an array of roles.
   * An element may be `undefined` (None), as when a profile without roles is wrapped.
   */
  datatype RoleArg = Bare(role: Option<string>) | Many(roles: seq<Option<string>>)

  /** `Array.isArray(userRole) ? userRole : [userRole]` */
  function AsList(arg: RoleArg): seq<Option<string>> {
    match arg
    case Bare(r) => [r]
    case Many(rs) => rs
  }

  /** `roleHierarchy[role]`, None when the lookup yields `undefined`. */
  function Rank(role: Option<string>): Option<nat> {
    if role.Some? && role.value in RoleHierarchy then Some(RoleHierarchy[role.value]) else None
  }

  predicate Known(role: Option<string>) {
    Rank(role).Some?
  }

  /** `roleHierarchy[role] >= roleHierarchy[minimumRole]`: a comparison with `undefined` is false. */
  predicate RanksAtLeast(role: Option<string>, minimumRole: string) {
    Known(role) && Known(Some(minimumRole)) && Rank(role).value >= Rank(Some(minimumRole)).value
  }

  /** Some role in the argument ranks at least as high as `minimumRole`. */
  function HasMinimumRole(userRole: RoleArg, minimumRole: string): (b: bool)
    ensures b <==> exists i :: 0 <= i < |AsList(userRole)| && Known(AsList(userRole)[i])
                     && minimumRole in RoleHierarchy
                     && Rank(AsList(userRole)[i]).value >= RoleHierarchy[minimumRole]
  {
    Any(AsList(userRole), r => RanksAtLeast(r, minimumRole))
  }

  /** `rolePermissions[role]?.includes(permission)` */
  predicate Grants(role: Option<string>, permission: string) {
    role.Some? && role.value in RolePermissions && permission in RolePermissions[role.value]
  }

  /** Some known role in the argument has `permission` among its defaults. */
  function HasPermission(userRole: RoleArg, permission: string): (b: bool)
    ensures b <==> exists i :: 0 <= i < |AsList(userRole)| && AsList(userRole)[i].Some?
                     && AsList(userRole)[i].value in RolePermissions
                     && permission in RolePermissions[AsList(userRole)[i].value]
  {
    Any(AsList(userRole), r => Grants(r, permission))
  }

  /** Membership in a server-supplied permission list; an absent list grants nothing. */
  function HasPermissionFromApi(apiPermissions: Option<seq<string>>, permission: string): (b: bool)
    ensures apiPermissions.None? ==> !b
    ensures apiPermissions.Some? ==> (b <==> permission in apiPermissions.value)
  {
    apiPermissions.Some? && permission in apiPermissions.value
  }

  /**
   * `roles.reduce(...)` starting from `highest`: an element replaces the running value only
   * when its rank is strictly greater.
   */
  function HighestFrom(highest: string, roles: seq<string>): (r: string)
    requires highest in RoleHierarchy
    decreases |roles|
    ensures r in RoleHierarchy
    ensures r == highest || r in roles
    ensures RoleHierarchy[r] >= RoleHierarchy[highest]
    ensures forall e :: e in roles && e in RoleHierarchy ==> RoleHierarchy[e] <= RoleHierarchy[r]
    ensures r != highest ==>
              exists i :: 0 <= i < |roles| && roles[i] == r && RoleHierarchy[r] > RoleHierarchy[highest]
                && forall j :: 0 <= j < i ==> !(roles[j] in RoleHierarchy && RoleHierarchy[roles[j]] >= RoleHierarchy[r])
  {
    if roles == [] then highest
    else
      var current := roles[0];
      var next := if current in RoleHierarchy && RoleHierarchy[current] > RoleHierarchy[highest] then current else highest;
      var r := HighestFrom(next, roles[1..]);
      assert forall e :: e in roles <==> e == current || e in roles[1..];
      assert r != next ==>
               exists i :: 0 <= i < |roles| && roles[i] == r && RoleHierarchy[r] > RoleHierarchy[next]
                 && forall j :: 1 <= j < i ==> !(roles[j] in RoleHierarchy && RoleHierarchy[roles[j]] >= RoleHierarchy[r])
      by {
        if r != next {
          var i :| 0 <= i < |roles[1..]| && roles[1..][i] == r && RoleHierarchy[r] > RoleHierarchy[next]
                   && forall j :: 0 <= j < i ==> !(roles[1..][j] in RoleHierarchy && RoleHierarchy[roles[1..][j]] >= RoleHierarchy[r]);
          assert roles[i + 1] == r;
          assert forall j :: 1 <= j < i + 1 ==> roles[j] == roles[1..][j - 1];
        }
      }
      r
  }

  /**
   * The highest-ranked role of the list; ROLE_USER when the list is empty or holds no role
   * ranked above it. On ties the earliest element wins.
   */
  function GetHighestRole(roles: seq<string>): (r: string)
    ensures roles == [] ==> r == USER
    ensures r in RoleHierarchy && (r == USER || r in roles)
    ensures forall e :: e in roles && e in RoleHierarchy ==> RoleHierarchy[e] <= RoleHierarchy[r]
    ensures r != USER ==>
              exists i :: 0 <= i < |roles| && roles[i] == r
                && forall j :: 0 <= j < i ==> !(roles[j] in RoleHierarchy && RoleHierarchy[roles[j]] >= RoleHierarchy[r])
  {
    HighestFrom(USER, roles)
  }

  /** `labels[role] || role` */
  function GetRoleLabel(role: string): (shown: string)
    ensures role in RoleLabels ==> shown == RoleLabels[role] && shown != role
    ensures role !in RoleLabels ==> shown == role
  {
    if role in RoleLabels && RoleLabels[role] != "" then RoleLabels[role] else role
  }

  // ---------------------------------------------------------------------------------------
  // Properties of the catalog and the predicates
  // ---------------------------------------------------------------------------------------

  /** A bare role behaves exactly like a one-element list, in both predicates. */
  lemma BareRoleIsSingletonList(role: Option<string>, minimumRole: string, permission: string)
    ensures HasMinimumRole(Bare(role), minimumRole) == HasMinimumRole(Many([role]), minimumRole)
    ensures HasPermission(Bare(role), permission) == HasPermission(Many([role]), permission)
  {
  }

  /** The greatest rank among the known roles of a list; 0 when none is known. */
  function MaxRank(roles: seq<Option<string>>): nat {
    if roles == [] then 0
    else
      var head := if Known(roles[0]) then Rank(roles[0]).value else 0;
      var tail := MaxRank(roles[1..]);
      if head >= tail then head else tail
  }

  /** The minimum-role check is a comparison against the greatest known rank. */
  lemma {:induction false} HasMinimumRoleIsMaxRank(roles: seq<Option<string>>, minimumRole: string)
    ensures HasMinimumRole(Many(roles), minimumRole) <==>
              minimumRole in RoleHierarchy && MaxRank(roles) >= RoleHierarchy[minimumRole]
  {
    if roles != [] {
      HasMinimumRoleIsMaxRank(roles[1..], minimumRole);
      assert HasMinimumRole(Many(roles), minimumRole) <==>
               RanksAtLeast(roles[0], minimumRole) || HasMinimumRole(Many(roles[1..]), minimumRole)
      by {
        assert forall i :: 1 <= i < |roles| ==> roles[i] == roles[1..][i - 1];
      }
    }
  }

  /** Satisfying a role requirement implies satisfying every lower-ranked one. */
  lemma HasMinimumRoleMonotone(userRole: RoleArg, higher: string, lower: string)
    requires higher in RoleHierarchy && lower in RoleHierarchy
    requires RoleHierarchy[lower] <= RoleHierarchy[higher]
    requires HasMinimumRole(userRole, higher)
    ensures HasMinimumRole(userRole, lower)
  {
  }

  /** Unknown or undefined role names satisfy no requirement and grant no permission. */
  lemma UnknownRolesGrantNothing(userRole: RoleArg, minimumRole: string, permission: string)
    requires forall i :: 0 <= i < |AsList(userRole)| ==> !Known(AsList(userRole)[i])
    ensures !HasMinimumRole(userRole, minimumRole)
    ensures !HasPermission(userRole, permission)
  {
    forall i | 0 <= i < |AsList(userRole)|
      ensures !Grants(AsList(userRole)[i], permission)
    {
      assert RolePermissions.Keys == RoleHierarchy.Keys;
    }
  }

  /** In this model an unknown minimum role is never satisfied, and an empty role list satisfies nothing. */
  lemma DegenerateArgumentsAreDenied(userRole: RoleArg, minimumRole: string, permission: string)
    ensures minimumRole !in RoleHierarchy ==> !HasMinimumRole(userRole, minimumRole)
    ensures !HasMinimumRole(Many([]), minimumRole) && !HasPermission(Many([]), permission)
  {
  }

  /** The default lists are nested: USER within STAFF within MANAGER within ADMIN. */
  lemma DefaultPermissionsNested()
    ensures forall p :: p in RolePermissions[USER] ==> p in RolePermissions[STAFF]
    ensures forall p :: p in RolePermissions[STAFF] ==> p in RolePermissions[MANAGER]
    ensures forall p :: p in RolePermissions[MANAGER] ==> p in RolePermissions[ADMIN]
  {
  }

  /** A role's default permissions are granted to every role ranked at least as high. */
  lemma HasPermissionMonotoneInRank(role: string, higher: string, permission: string)
    requires role in RoleHierarchy && higher in RoleHierarchy
    requires RoleHierarchy[role] <= RoleHierarchy[higher]
    requires HasPermission(Many([Some(role)]), permission)
    ensures HasPermission(Many([Some(higher)]), permission)
  {
    DefaultPermissionsNested();
    assert Grants(Some(role), permission);
    assert Grants(Some(higher), permission);
  }

  /** `role:manage`, `system:config` and `audit:read` are defaults of ROLE_ADMIN alone. */
  lemma AdminOnlyPermissions(role: string, permission: string)
    requires permission == "role:manage" || permission == "system:config" || permission == "audit:read"
    ensures Grants(Some(role), permission) <==> role == ADMIN
  {
  }

  /** Every rank is distinct, so the hierarchy is a strict total order on the four roles. */
  lemma RanksAreDistinct(a: string, b: string)
    requires a in RoleHierarchy && b in RoleHierarchy && a != b
    ensures RoleHierarchy[a] != RoleHierarchy[b]
  {
  }

  // ---------------------------------------------------------------------------------------
  // The default-permission lookup as written, for names every plain object inherits
  // ---------------------------------------------------------------------------------------

  /** Member names every plain object inherits; looking one up in the permission record finds a function, not an array. */
  const InheritedMembers: set<string> := {
    "constructor", "hasOwnProperty", "isPrototypeOf", "propertyIsEnumerable",
    "toLocaleString", "toString", "valueOf", "__proto__",
    "__defineGetter__", "__defineSetter__", "__lookupGetter__", "__lookupSetter__"
  }

  /** A computation that either returns a value or throws a TypeError. */
  datatype Outcome = Returns(value: bool) | Throws

  /**
   * The default-permission check as written: the record lookup also finds inherited members,
   * whose `includes` is `undefined`, so calling it throws; `some` stops at the first `true`.
   */
  function HasPermissionAsWritten(roles: seq<Option<string>>, permission: string): (o: Outcome)
    ensures (forall i :: 0 <= i < |roles| ==> !(roles[i].Some? && roles[i].value in InheritedMembers)) ==>
              o == Returns(HasPermission(Many(roles), permission))
    ensures o.Throws? ==> exists i :: 0 <= i < |roles| && roles[i].Some? && roles[i].value in InheritedMembers
  {
    if roles == [] then Returns(false)
    else if Grants(roles[0], permission) then Returns(true)
    else if roles[0].Some? && roles[0].value in InheritedMembers then Throws
    else
      var rest := HasPermissionAsWritten(roles[1..], permission);
      assert forall i :: 1 <= i < |roles| ==> roles[i] == roles[1..][i - 1];
      rest
  }

  /**
   * A profile whose role is named `constructor` makes the written check throw, where the
   * intended answer, computed by HasPermission, is `false`.
   */
  lemma InheritedRoleNameThrows()
    ensures HasPermissionAsWritten([Some("constructor")], "user:read") == Throws
    ensures !HasPermission(Many([Some("constructor")]), "user:read")
  {
    assert "constructor" !in RolePermissions;
  }
}
