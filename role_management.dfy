/**
 * The role administration page: its access check, the permission checkboxes of the role
 * form, the grouping of the permission catalog by category, the role badges, the rules
 * protecting the built-in roles, and the page state.
 */
module RoleManagement {
  import opened Wrappers
  import opened JsArray
  import opened Permissions
  import opened Profile
  import opened Responses
  import Paging
  import PermissionGuard

  const DASHBOARD_PATH: string := "/admin/dashboard"
  const MANAGE_ROLES: string := "role:manage"
  const PAGE_SIZE: nat := 10

  /** A role as the list endpoint returns it. */
  datatype RoleRow = RoleRow(id: int, name: string, description: string, permissions: Option<seq<string>>)

  /** A permission of the catalog. */
  datatype Permission = Permission(id: int, name: string, description: string, category: string)

  /** The role form. */
  datatype RoleForm = RoleForm(name: string, description: string, permissions: seq<string>)

  const EmptyForm: RoleForm := RoleForm("", "", [])

  /** The four categories the permission picker shows. */
  const Categories: set<string> := {"User Management", "Report Management", "Order Management", "System Management"}

  // ---------------------------------------------------------------------------------------
  // Access
  // ---------------------------------------------------------------------------------------

  /** The page's check: the profile list when there is one, the role defaults otherwise. */
  function HasAccess(userProfile: Option<UserProfile>): (granted: bool)
    ensures granted == PermissionGuard.HasAccess(userProfile, Some(MANAGE_ROLES), None)
    ensures ApiPermissions(userProfile).Some? ==> (granted <==> MANAGE_ROLES in ApiPermissions(userProfile).value)
    ensures userProfile.None? ==> !granted
  {
    if ApiPermissions(userProfile).Some? then HasPermissionFromApi(ApiPermissions(userProfile), MANAGE_ROLES)
    else HasPermission(Many(NormalisedRoles(userProfile)), MANAGE_ROLES)
  }

  /** Where a user without access is sent. */
  function AccessRedirect(userProfile: Option<UserProfile>): (target: Option<string>)
    ensures target.None? <==> HasAccess(userProfile)
    ensures target.Some? ==> target.value == DASHBOARD_PATH
  {
    if HasAccess(userProfile) then None else Some(DASHBOARD_PATH)
  }

  /** The page's check is the guard's check for `role:manage`, whatever minimum role is passed. */
  lemma AccessIsGuardCheck(userProfile: Option<UserProfile>, minRole: Option<string>)
    ensures HasAccess(userProfile) == PermissionGuard.HasAccess(userProfile, Some(MANAGE_ROLES), minRole)
  {
  }

  /** Without a profile list, only a user whose roles include ROLE_ADMIN gets in. */
  lemma WithoutListOnlyAdministrators(userProfile: Option<UserProfile>)
    requires ApiPermissions(userProfile).None?
    ensures HasAccess(userProfile) <==> Some(ADMIN) in NormalisedRoles(userProfile)
  {
    var roles := NormalisedRoles(userProfile);
    if HasAccess(userProfile) {
      var i :| 0 <= i < |roles| && roles[i].Some? && roles[i].value in RolePermissions
               && MANAGE_ROLES in RolePermissions[roles[i].value];
      AdminOnlyPermissions(roles[i].value, MANAGE_ROLES);
    }
    if Some(ADMIN) in roles {
      var i :| 0 <= i < |roles| && roles[i] == Some(ADMIN);
      assert Grants(roles[i], MANAGE_ROLES);
    }
  }

  // ---------------------------------------------------------------------------------------
  // The permission checkboxes
  // ---------------------------------------------------------------------------------------

  /** A checkbox click: drop every occurrence of a selected name, append an unselected one. */
  function TogglePermission(permissions: seq<string>, name: string): (toggled: seq<string>)
    ensures name in toggled <==> name !in permissions
    ensures forall other :: other != name ==> (other in toggled <==> other in permissions)
  {
    if name in permissions then Without(permissions, name) else permissions + [name]
  }

  /** Toggling an unselected name twice gives back the original selection. */
  lemma ToggleTwiceRestores(permissions: seq<string>, name: string)
    requires name !in permissions
    ensures TogglePermission(TogglePermission(permissions, name), name) == permissions
  {
    WithoutAppended(permissions, name);
  }

  /** Toggling a selected name twice removes its duplicates and moves it to the end. */
  lemma ToggleTwiceMovesToEnd(permissions: seq<string>, name: string)
    requires name in permissions
    ensures TogglePermission(TogglePermission(permissions, name), name) == Without(permissions, name) + [name]
  {
  }

  // ---------------------------------------------------------------------------------------
  // Grouping of the catalog
  // ---------------------------------------------------------------------------------------

  /** The names of the permissions in `category`, in the order the server sent them. */
  function NamesIn(permissions: seq<Permission>, category: string): seq<string>
    decreases |permissions|
  {
    if permissions == [] then []
    else
      var last := permissions[|permissions| - 1];
      NamesIn(permissions[..|permissions| - 1], category) + (if last.category == category then [last.name] else [])
  }

  /** A name is grouped under a category iff some permission of that category carries it. */
  lemma {:induction false} NamesInMembers(permissions: seq<Permission>, category: string, name: string)
    ensures name in NamesIn(permissions, category) <==>
              exists i :: 0 <= i < |permissions| && permissions[i].category == category && permissions[i].name == name
    decreases |permissions|
  {
    if permissions != [] {
      var init := permissions[..|permissions| - 1];
      NamesInMembers(init, category, name);
      assert forall i :: 0 <= i < |init| ==> init[i] == permissions[i];
    }
  }

  /** Grouping distributes over concatenation: the server's order is kept within each category. */
  lemma {:induction false} NamesInAppend(first: seq<Permission>, second: seq<Permission>, category: string)
    ensures NamesIn(first + second, category) == NamesIn(first, category) + NamesIn(second, category)
    decreases |second|
  {
    if second == [] {
      assert first + second == first;
    } else {
      var init := second[..|second| - 1];
      NamesInAppend(first, init, category);
      assert (first + second)[..|first + second| - 1] == first + init;
    }
  }

  /**
   * The grouping loop: every permission whose category is one of the four is appended to
   * that category's list; permissions of any other category are dropped.
   */
  method GroupByCategory(permissions: seq<Permission>) returns (grouped: map<string, seq<string>>)
    ensures grouped.Keys == Categories
    ensures forall category :: category in grouped ==> grouped[category] == NamesIn(permissions, category)
  {
    grouped := map["User Management" := [], "Report Management" := [], "Order Management" := [], "System Management" := []];
    var i := 0;
    while i < |permissions|
      invariant 0 <= i <= |permissions|
      invariant grouped.Keys == Categories
      invariant forall category :: category in grouped ==> grouped[category] == NamesIn(permissions[..i], category)
    {
      var permission := permissions[i];
      assert permissions[..i + 1][..i] == permissions[..i];
      if permission.category in grouped {
        grouped := grouped[permission.category := grouped[permission.category] + [permission.name]];
      }
      i := i + 1;
    }
    assert permissions[..|permissions|] == permissions;
  }

  /** A permission of an unknown category appears in no group. */
  lemma UnknownCategoryDropped(permissions: seq<Permission>, i: int, category: string)
    requires 0 <= i < |permissions| && permissions[i].category !in Categories
    requires category in Categories
    requires forall j :: 0 <= j < |permissions| && j != i ==> permissions[j].name != permissions[i].name
    ensures permissions[i].name !in NamesIn(permissions, category)
  {
    NamesInMembers(permissions, category, permissions[i].name);
  }

  // ---------------------------------------------------------------------------------------
  // Badges and the built-in roles
  // ---------------------------------------------------------------------------------------

  /** The badge variant of a role name. */
  function RoleColor(roleName: string): (variant: string)
    ensures roleName == ADMIN ==> variant == "destructive"
    ensures roleName == MANAGER ==> variant == "default"
    ensures roleName == STAFF ==> variant == "secondary"
    ensures roleName !in {ADMIN, MANAGER, STAFF} ==> variant == "outline"
  {
    if roleName == ADMIN then "destructive"
    else if roleName == MANAGER then "default"
    else if roleName == STAFF then "secondary"
    else "outline"
  }

  /** The three privileged roles get three distinct badges, none of them the plain outline. */
  lemma PrivilegedRolesDistinguished(a: string, b: string)
    requires a in {ADMIN, MANAGER, STAFF} && b in {ADMIN, MANAGER, STAFF} && a != b
    ensures RoleColor(a) != RoleColor(b) && RoleColor(a) != "outline"
  {
  }

  /** ROLE_ADMIN and ROLE_USER are built in: their delete button is disabled. */
  function CanDeleteRole(roleName: string): (deletable: bool)
    ensures roleName in RoleHierarchy ==> (deletable <==> RoleHierarchy[roleName] in {2, 3})
    ensures roleName !in RoleHierarchy ==> deletable
  {
    !(roleName == ADMIN || roleName == USER)
  }

  /** The name field of the edit dialog is disabled for the built-in roles. */
  function NameEditable(editing: Option<RoleRow>): (editable: bool)
    ensures editing.None? ==> editable
    ensures editing.Some? ==> (editable <==> CanDeleteRole(editing.value.name))
  {
    !(editing.Some? && (editing.value.name == ADMIN || editing.value.name == USER))
  }

  /**
   * The built-in roles, which can neither be deleted nor renamed, are exactly the top and the
   * bottom of the hierarchy.
   */
  lemma BuiltInRolesAreTheExtremes(role: RoleRow)
    requires role.name in RoleHierarchy
    ensures !CanDeleteRole(role.name) <==> RoleHierarchy[role.name] == 4 || RoleHierarchy[role.name] == 1
    ensures !CanDeleteRole(role.name) <==> !NameEditable(Some(role))
  {
  }

  /** The edit dialog's form: name and description as loaded, permissions `|| []`. */
  function EditForm(loaded: RoleRow): (form: RoleForm)
    ensures form.name == loaded.name && form.description == loaded.description
    ensures loaded.permissions.Some? ==> form.permissions == loaded.permissions.value
    ensures loaded.permissions.None? ==> form.permissions == []
  {
    RoleForm(loaded.name, loaded.description, loaded.permissions.GetOr([]))
  }

  // ---------------------------------------------------------------------------------------
  // The page state
  // ---------------------------------------------------------------------------------------

  class RoleManagementPage {
    var roles: seq<RoleRow>
    var loading: bool
    var rolesUnusable: bool
    var permissionsByCategory: map<string, seq<string>>
    var form: RoleForm
    var editing: Option<RoleRow>
    const pager: Paging.Pager

    ghost predicate Valid()
      reads this, pager
    {
      pager.Valid() && pager.pageSize == PAGE_SIZE && permissionsByCategory.Keys == Categories
    }

    constructor()
      ensures Valid() && fresh(pager)
      ensures roles == [] && loading && !rolesUnusable && form == EmptyForm && editing.None?
      ensures pager.page == 0 && pager.totalPages == Some(0) && pager.totalElements == Some(0)
      ensures forall category :: category in permissionsByCategory ==> permissionsByCategory[category] == []
    {
      roles, loading, rolesUnusable := [], true, false;
      permissionsByCategory := map["User Management" := [], "Report Management" := [], "Order Management" := [], "System Management" := []];
      form, editing := EmptyForm, None;
      pager := new Paging.Pager(PAGE_SIZE, false);
    }

    /** The pager is shown once loading is over and the list is not empty. */
    function PagerVisible(): (visible: bool)
      reads this
      ensures visible ==> !loading
      ensures !loading ==> (visible <==> roles != [])
    {
      !loading && |roles| > 0
    }

    /** A role-list response, or None when the request failed; loading ends either way. */
    method ApplyRolesResponse(response: Option<Body<RoleRow>>)
      requires Valid()
      modifies this, pager
      ensures Valid() && !loading && pager.page == old(pager.page)
      ensures response.Some? && ContentOnly(response.value).Loaded? ==>
                var r := ContentOnly(response.value);
                roles == r.items && !rolesUnusable
                && pager.totalPages == r.totalPages && pager.totalElements == r.totalElements
      ensures response.Some? && ContentOnly(response.value).Unusable? ==>
                rolesUnusable && pager.totalPages == response.value.totalPages && pager.totalElements == response.value.totalItems
      ensures response.None? || ContentOnly(response.value).Unchanged? ==>
                roles == old(roles) && rolesUnusable == old(rolesUnusable)
                && pager.totalPages == old(pager.totalPages) && pager.totalElements == old(pager.totalElements)
      ensures permissionsByCategory == old(permissionsByCategory) && form == old(form) && editing == old(editing)
      ensures PagerVisible() <==> roles != []
    {
      if response.Some? {
        var outcome := ContentOnly(response.value);
        match outcome
        case Loaded(items, totalPages, totalElements) =>
          roles, rolesUnusable := items, false;
          pager.SetTotals(totalPages, totalElements);
        case Unusable =>
          rolesUnusable := true;
          pager.SetTotals(response.value.totalPages, response.value.totalItems);
        case Unchanged =>
      }
      loading := false;
    }

    /** The permission catalog arrives: it is grouped by category. */
    method ApplyCatalog(permissions: seq<Permission>)
      requires Valid()
      modifies this
      ensures Valid()
      ensures forall category :: category in permissionsByCategory ==>
                permissionsByCategory[category] == NamesIn(permissions, category)
      ensures roles == old(roles) && form == old(form) && editing == old(editing) && loading == old(loading)
      ensures rolesUnusable == old(rolesUnusable)
    {
      permissionsByCategory := GroupByCategory(permissions);
    }

    /** A checkbox of the role form. */
    method Toggle(name: string)
      requires Valid()
      modifies this
      ensures Valid()
      ensures form == old(form).(permissions := TogglePermission(old(form).permissions, name))
      ensures roles == old(roles) && editing == old(editing) && permissionsByCategory == old(permissionsByCategory)
      ensures loading == old(loading) && rolesUnusable == old(rolesUnusable)
    {
      form := form.(permissions := TogglePermission(form.permissions, name));
    }

    /** The edit dialog opens on a role whose details have been loaded. */
    method OpenEditDialog(role: RoleRow, loaded: RoleRow)
      requires Valid()
      modifies this
      ensures Valid()
      ensures editing == Some(role) && form == EditForm(loaded)
      ensures roles == old(roles) && permissionsByCategory == old(permissionsByCategory)
      ensures loading == old(loading) && rolesUnusable == old(rolesUnusable)
    {
      editing := Some(role);
      form := EditForm(loaded);
    }
  }
}
