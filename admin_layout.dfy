/**
 * The administration layout: the sidebar menu filtered by the signed-in user's rights, the
 * header title looked up from the current path, and the role label under the user's name.
 */
module AdminLayout {
  import opened Wrappers
  import opened JsArray
  import opened Permissions
  import opened Profile
  import UsePermissions

  /** A sidebar entry; a requirement given as the empty string counts as absent. */
  datatype MenuItem = MenuItem(name: string, path: string, requiredPermission: Option<string>, requiredRole: Option<string>)

  const Dashboard: MenuItem := MenuItem("Dashboard", "/admin/dashboard", None, None)

  /** The six entries, in sidebar order. */
  const AllMenuItems: seq<MenuItem> := [
    Dashboard,
    MenuItem("Người dùng", "/admin/users", Some("user:create"), None),
    MenuItem("Đơn hàng", "/admin/orders", Some("order:read"), None),
    MenuItem("Vai trò", "/admin/roles", Some("role:manage"), None),
    MenuItem("Quyền hạn", "/admin/permissions", Some("role:manage"), None),
    MenuItem("Cài đặt", "/admin/settings", Some("system:config"), None)
  ]

  /** The normalised roles name ROLE_ADMIN. */
  function IsAdmin(userProfile: Option<UserProfile>): (admin: bool)
    ensures userProfile.None? ==> !admin
    ensures userProfile.Some? ==> (admin <==> RolesInclude(userProfile.value.roles, ADMIN))
  {
    if userProfile.Some? then RolesIncludeIsNormalisedMembership(userProfile.value, ADMIN); Some(ADMIN) in NormalisedRoles(userProfile)
    else Some(ADMIN) in NormalisedRoles(userProfile)
  }

  /**
   * Whether an entry is shown: administrators see everything, an entry without requirement
   * is shown, a permission requirement is checked against the profile list only, and a role
   * requirement against the normalised roles.
   */
  function ItemVisible(userProfile: Option<UserProfile>, item: MenuItem): (visible: bool)
    ensures IsAdmin(userProfile) ==> visible
    ensures !Truthy(item.requiredPermission) && !Truthy(item.requiredRole) ==> visible
    ensures !IsAdmin(userProfile) && Truthy(item.requiredPermission) ==>
              visible == UsePermissions.HookHasPermission(userProfile, item.requiredPermission.value)
    ensures !IsAdmin(userProfile) && !Truthy(item.requiredPermission) && Truthy(item.requiredRole) ==>
              visible == HasMinimumRole(Many(NormalisedRoles(userProfile)), item.requiredRole.value)
  {
    if IsAdmin(userProfile) then true
    else if !Truthy(item.requiredPermission) && !Truthy(item.requiredRole) then true
    else if Truthy(item.requiredPermission) then
      ApiPermissions(userProfile).Some? && item.requiredPermission.value in ApiPermissions(userProfile).value
    else if Truthy(item.requiredRole) then
      HasMinimumRole(Many(NormalisedRoles(userProfile)), item.requiredRole.value)
    else true
  }

  /** The entries the sidebar shows, in their original order. */
  function MenuItems(userProfile: Option<UserProfile>): (menu: seq<MenuItem>)
    ensures forall i :: 0 <= i < |menu| ==> menu[i] in AllMenuItems && ItemVisible(userProfile, menu[i])
    ensures forall i :: 0 <= i < |AllMenuItems| && ItemVisible(userProfile, AllMenuItems[i]) ==> AllMenuItems[i] in menu
    ensures IsSubsequence(menu, AllMenuItems)
  {
    Filter(AllMenuItems, VisibleTo(userProfile))
  }

  function VisibleTo(userProfile: Option<UserProfile>): MenuItem -> bool {
    item => ItemVisible(userProfile, item)
  }

  /** `menu.find(i => i.path === pathname)?.name || "Dashboard"` */
  function HeaderTitle(menu: seq<MenuItem>, pathname: string): (title: string)
    ensures forall i ::
              (0 <= i < |menu| && menu[i].path == pathname && forall j :: 0 <= j < i ==> menu[j].path != pathname) ==>
              title == (if menu[i].name != "" then menu[i].name else "Dashboard")
    ensures (forall i :: 0 <= i < |menu| ==> menu[i].path != pathname) ==> title == "Dashboard"
  {
    var found := Find(menu, (item: MenuItem) => item.path == pathname);
    if found.Some? then
      var i :| 0 <= i < |menu| && menu[i] == found.value && menu[i].path == pathname
               && forall j :: 0 <= j < i ==> menu[j].path != pathname;
      assert forall k ::
               (0 <= k < |menu| && menu[k].path == pathname && forall j :: 0 <= j < k ==> menu[j].path != pathname) ==> k == i;
      OrElse(Some(found.value.name), "Dashboard")
    else "Dashboard"
  }

  /**
   * `userProfile && getRoleLabel(userRoles[0] || 'ROLE_USER')`: nothing without a profile,
   * otherwise the label of the first role, or of ROLE_USER when that is missing or empty.
   */
  function SidebarRoleLabel(userProfile: Option<UserProfile>): (shown: Option<string>)
    ensures userProfile.None? <==> shown.None?
    ensures shown.Some? && |NormalisedRoles(userProfile)| > 0 && Truthy(NormalisedRoles(userProfile)[0]) ==>
              shown.value == GetRoleLabel(NormalisedRoles(userProfile)[0].value)
    ensures shown.Some? && (|NormalisedRoles(userProfile)| == 0 || !Truthy(NormalisedRoles(userProfile)[0])) ==>
              shown.value == RoleLabels[USER]
  {
    if userProfile.None? then None
    else
      var roles := NormalisedRoles(userProfile);
      var first := if |roles| > 0 then roles[0] else None;
      Some(GetRoleLabel(OrElse(first, USER)))
  }

  // ---------------------------------------------------------------------------------------
  // Properties of the menu
  // ---------------------------------------------------------------------------------------

  /** An administrator sees all six entries, in order. */
  lemma AdminSeesEverything(userProfile: Option<UserProfile>)
    requires IsAdmin(userProfile)
    ensures MenuItems(userProfile) == AllMenuItems
  {
    assert Every(AllMenuItems, VisibleTo(userProfile));
  }

  /** Dashboard has no requirement, so it is always the first entry shown. */
  lemma DashboardAlwaysFirst(userProfile: Option<UserProfile>)
    ensures |MenuItems(userProfile)| > 0 && MenuItems(userProfile)[0] == Dashboard
  {
    assert ItemVisible(userProfile, AllMenuItems[0]);
  }

  /**
   * For a non-administrator, an entry with a permission requirement is shown exactly when the
   * profile list holds it: the permission hook's answer, with no fallback to the roles.
   */
  lemma PermissionEntryNeedsList(userProfile: Option<UserProfile>, item: MenuItem)
    requires !IsAdmin(userProfile) && Truthy(item.requiredPermission)
    ensures ItemVisible(userProfile, item) <==>
              ApiPermissions(userProfile).Some? && item.requiredPermission.value in ApiPermissions(userProfile).value
    ensures ItemVisible(userProfile, item) == UsePermissions.HookHasPermission(userProfile, item.requiredPermission.value)
  {
  }

  /** An entry with only a role requirement is shown to a non-administrator iff the roles reach it. */
  lemma RoleEntryUsesMinimumRole(userProfile: Option<UserProfile>, item: MenuItem)
    requires !IsAdmin(userProfile) && !Truthy(item.requiredPermission) && Truthy(item.requiredRole)
    ensures ItemVisible(userProfile, item) == HasMinimumRole(Many(NormalisedRoles(userProfile)), item.requiredRole.value)
  {
  }

  /**
   * A non-administrator without a permission list sees Dashboard alone, whatever the roles:
   * every other entry needs a permission.
   */
  lemma NoListNoAdminSeesOnlyDashboard(userProfile: Option<UserProfile>)
    requires !IsAdmin(userProfile) && ApiPermissions(userProfile).None?
    ensures MenuItems(userProfile) == [Dashboard]
  {
    var tail := AllMenuItems[1..];
    var rest := Kept(tail, VisibleTo(userProfile));
    assert VisibleTo(userProfile)(AllMenuItems[0]);
    assert MenuItems(userProfile) == [Dashboard] + rest;
    KeptProperties(tail, VisibleTo(userProfile));
    if |rest| > 0 {
      assert rest[0] in tail;
      var k :| 0 <= k < |tail| && tail[k] == rest[0];
      assert Truthy(tail[k].requiredPermission);
    }
  }

  /** A non-administrator without a list who opens the roles page sees the title "Dashboard". */
  lemma HiddenPageTitledDashboard(userProfile: Option<UserProfile>)
    requires !IsAdmin(userProfile) && ApiPermissions(userProfile).None?
    ensures HeaderTitle(MenuItems(userProfile), "/admin/roles") == "Dashboard"
  {
    NoListNoAdminSeesOnlyDashboard(userProfile);
  }

  /** A profile whose role list is empty, or who has no roles, is labelled as a plain user. */
  lemma SidebarDefaultsToUserLabel(userProfile: UserProfile)
    requires userProfile.roles == RoleList([]) || userProfile.roles == NoRoles
    ensures SidebarRoleLabel(Some(userProfile)) == Some("Người dùng")
  {
  }
}
