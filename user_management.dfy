/**
 * The user administration page: the normalisation of the user-list response, the user form
 * and its payload, the role badges of the table, the self-delete rule, the avatar size check
 * and the page state.
 */
module UserManagement {
  import opened Wrappers
  import opened JsArray
  import opened Permissions
  import opened Profile
  import opened Responses
  import opened Files
  import Paging
  import PermissionGuard
  import AdminLayout
  import RoleManagement

  const PAGE_SIZE: nat := 5
  const AVATAR_LIMIT: nat := 10 * MiB

  /** A row of the user table. */
  datatype UserRow = UserRow(
    id: int,
    username: string,
    email: string,
    avatarUrl: Option<string>,
    roles: RolesField,
    permissions: Option<seq<string>>
  )

  /**
   * The form's `roles` value: normally a list, but the edit dialog copies a role that the
   * server sent as a single string unchanged.
   */
  datatype FormRoles = ListRoles(names: seq<string>) | StringRoles(name: string)

  /** The create/edit form. */
  datatype UserForm = UserForm(username: string, email: string, password: string, roles: FormRoles, permissions: seq<string>)

  /** The form as the page starts and as it is reset after a save. */
  const EmptyForm: UserForm := UserForm("", "", "", ListRoles([USER]), [])

  /** The permission picker's catalog, in four groups. */
  const PermissionCategories: seq<(string, seq<string>)> := [
    ("User Management", ["user:read", "user:create", "user:update", "user:delete"]),
    ("Report Management", ["report:read", "report:create", "report:update", "report:delete", "report:export"]),
    ("Order Management", ["order:read", "order:create", "order:update", "order:delete", "order:approve"]),
    ("System Management", ["audit:read", "system:config", "role:manage"])
  ]

  // ---------------------------------------------------------------------------------------
  // The list response
  // ---------------------------------------------------------------------------------------

  /**
   * A truthy `content` gives the list with the response's `totalPages` and `totalElements`;
   * a bare array is one page holding the whole list; an object without `content`, or a
   * `content` that is not an array, is stored as the list although it is not one.
   */
  function UsersFromResponse(body: Body<UserRow>): (r: Responses.Outcome<UserRow>)
    ensures !r.Unchanged?
    ensures body.ArrayBody? ==> r == Loaded(body.items, Some(1), Some(|body.items|))
    ensures body.ObjectBody? && body.content.Items? ==>
              r == Loaded(body.content.items, body.totalPages, body.totalElements)
    ensures r.Unusable? <==> body.ObjectBody? && !body.content.Items?
  {
    match body
    case ArrayBody(items) => Loaded(items, Some(1), Some(|items|))
    case ObjectBody(content, _, totalPages, totalElements, _) =>
      if content.Items? then Loaded(content.items, totalPages, totalElements) else Unusable
  }

  /**
   * A bare array is shown as one page: both buttons are disabled on page 0 and the label
   * reads page 1 of 1, whatever the length of the list.
   */
  lemma BareArrayIsOnePage(items: seq<UserRow>)
    ensures var r := UsersFromResponse(ArrayBody(items));
      r.Loaded? && r.items == items && Paging.PreviousDisabled(0) && Paging.NextDisabled(0, r.totalPages)
      && Paging.ShownTotalPages(r.totalPages) == 1 && r.totalElements == Some(|items|)
  {
  }

  /** Unlike the role and permission pages, this page never ignores a response. */
  lemma EveryResponseReplacesTheList(items: seq<UserRow>)
    ensures ContentOnly(ArrayBody(items)).Unchanged?
    ensures UsersFromResponse(ArrayBody(items)).Loaded?
  {
  }

  /** The query: an empty search or role filter is left out. */
  datatype Query = Query(page: int, size: nat, search: Option<string>, role: Option<string>)

  function ListQuery(page: int, search: string, roleFilter: string): (q: Query)
    ensures q.page == page && q.size == PAGE_SIZE
    ensures q.search.None? <==> search == ""
    ensures q.search.Some? ==> q.search.value == search
    ensures q.role.None? <==> roleFilter == ""
    ensures q.role.Some? ==> q.role.value == roleFilter
  {
    Query(page, PAGE_SIZE, if search == "" then None else Some(search), if roleFilter == "" then None else Some(roleFilter))
  }

  // ---------------------------------------------------------------------------------------
  // The form and its payload
  // ---------------------------------------------------------------------------------------

  /** `permissions.length > 0 ? permissions : null`. */
  function PermissionsPayload(selection: seq<string>): (payload: Option<seq<string>>)
    ensures payload.None? <==> selection == []
    ensures payload.Some? ==> payload.value == selection
  {
    if |selection| > 0 then Some(selection) else None
  }

  /**
   * Once stored as the user's list, the payload grants exactly the selected permissions; an
   * empty selection is sent as null, so the user falls back to the role defaults instead of
   * being denied everything.
   */
  lemma PayloadGrantsSelection(profile: UserProfile, selection: seq<string>, permission: string, minRole: Option<string>)
    requires profile.permissions == PermissionsPayload(selection) && permission != ""
    ensures selection != [] ==>
              (PermissionGuard.HasAccess(Some(profile), Some(permission), minRole) <==> permission in selection)
    ensures selection == [] ==>
              PermissionGuard.HasAccess(Some(profile), Some(permission), minRole) ==
              HasPermission(Many(NormalisedRoles(Some(profile))), permission)
  {
    if selection != [] {
      PermissionGuard.ApiListIsAuthoritative(Some(profile), Some(permission), minRole);
    } else {
      PermissionGuard.RolesDecideWithoutList(Some(profile), Some(permission), minRole);
    }
  }

  /** What a create request sends. */
  datatype CreateRequest = CreateRequest(username: string, email: string, password: string, roles: FormRoles, permissions: Option<seq<string>>)

  /** What an update request sends: no password. */
  datatype UpdateRequest = UpdateRequest(username: string, email: string, roles: FormRoles, permissions: Option<seq<string>>)

  function CreatePayload(form: UserForm): (request: CreateRequest)
    ensures request.username == form.username && request.email == form.email && request.password == form.password
    ensures request.roles == form.roles
    ensures request.permissions.None? <==> form.permissions == []
    ensures request.permissions.Some? ==> request.permissions.value == form.permissions
  {
    CreateRequest(form.username, form.email, form.password, form.roles, PermissionsPayload(form.permissions))
  }

  function UpdatePayload(form: UserForm): (request: UpdateRequest)
    ensures request.username == form.username && request.email == form.email && request.roles == form.roles
    ensures request.permissions.None? <==> form.permissions == []
    ensures request.permissions.Some? ==> request.permissions.value == form.permissions
  {
    UpdateRequest(form.username, form.email, form.roles, PermissionsPayload(form.permissions))
  }

  /**
   * The edit dialog's form: username and email copied, password cleared, `roles || ['ROLE_USER']`
   * and `permissions || []`. An empty role string is falsy; an empty list is not.
   */
  function EditForm(user: UserRow): (form: UserForm)
    ensures form.username == user.username && form.email == user.email && form.password == ""
    ensures user.roles.RoleList? ==> form.roles == ListRoles(user.roles.roles)
    ensures user.roles.NoRoles? || user.roles == ScalarRole("") ==> form.roles == ListRoles([USER])
    ensures user.roles.ScalarRole? && user.roles.role != "" ==> form.roles == StringRoles(user.roles.role)
    ensures form.permissions == user.permissions.GetOr([])
  {
    var roles := match user.roles
      case NoRoles => ListRoles([USER])
      case ScalarRole(r) => if r == "" then ListRoles([USER]) else StringRoles(r)
      case RoleList(rs) => ListRoles(rs);
    UserForm(user.username, user.email, "", roles, user.permissions.GetOr([]))
  }

  /** A checkbox of the permission picker: checking appends, unchecking removes every occurrence. */
  function SetChecked(permissions: seq<string>, permission: string, checked: bool): (updated: seq<string>)
    ensures checked ==> updated == permissions + [permission]
    ensures !checked ==> permission !in updated
    ensures !checked ==> IsSubsequence(updated, permissions) && multiset(updated) == multiset(permissions)[permission := 0]
    ensures forall other :: other != permission ==> (other in updated <==> other in permissions)
  {
    if checked then permissions + [permission] else Without(permissions, permission)
  }

  /**
   * A click on a checkbox that shows the current selection is the role page's toggle: it
   * checks an unselected name and unchecks a selected one.
   */
  lemma ClickIsToggle(permissions: seq<string>, permission: string)
    ensures SetChecked(permissions, permission, permission !in permissions) ==
            RoleManagement.TogglePermission(permissions, permission)
  {
  }

  // ---------------------------------------------------------------------------------------
  // The extra-permission panel
  // ---------------------------------------------------------------------------------------

  /** `currentUser?.roles && (isArray ? includes('ROLE_ADMIN') : === 'ROLE_ADMIN')`. */
  function IsCurrentUserAdmin(currentUser: Option<UserProfile>): (admin: bool)
    ensures admin <==> AdminLayout.IsAdmin(currentUser)
  {
    currentUser.Some? && match currentUser.value.roles
      case NoRoles => false
      case ScalarRole(r) => r != "" && r == ADMIN
      case RoleList(rs) => ADMIN in rs
  }

  /** The page's administrator test is the sidebar's. */
  lemma CurrentUserAdminIsLayoutAdmin(currentUser: Option<UserProfile>)
    ensures IsCurrentUserAdmin(currentUser) <==> AdminLayout.IsAdmin(currentUser)
  {
    if currentUser.Some? {
      RolesIncludeIsNormalisedMembership(currentUser.value, ADMIN);
    }
  }

  /**
   * `formData.roles[0]` as the page reads it: the first name of a list, but the first
   * CHARACTER of a role kept as a string; undefined for an empty list or string.
   */
  function FirstRoleAsWritten(roles: FormRoles): (first: Option<string>)
    ensures roles.ListRoles? ==> (first.None? <==> roles.names == [])
    ensures roles.ListRoles? && roles.names != [] ==> first == Some(roles.names[0])
    ensures roles.StringRoles? && roles.name != "" ==> first == Some([roles.name[0]])
  {
    match roles
    case ListRoles(rs) => if rs == [] then None else Some(rs[0])
    case StringRoles(s) => if s == "" then None else Some([s[0]])
  }

  /** The panel test as written: `isCurrentUserAdmin && !['ROLE_USER', 'ROLE_ADMIN'].includes(formData.roles[0])`. */
  function PanelShownAsWritten(isAdmin: bool, roles: FormRoles): (shown: bool)
    ensures shown ==> isAdmin
    ensures roles.StringRoles? ==> (shown <==> isAdmin)
    ensures roles == ListRoles([]) ==> (shown <==> isAdmin)
    ensures roles.ListRoles? && roles.names != [] ==> (shown <==> isAdmin && roles.names[0] != USER && roles.names[0] != ADMIN)
  {
    assert |USER| != 1 && |ADMIN| != 1;
    isAdmin && FirstRoleAsWritten(roles) != Some(USER) && FirstRoleAsWritten(roles) != Some(ADMIN)
  }

  /**
   * Editing a user whose role the server sent as the string "ROLE_ADMIN" shows the panel,
   * which is meant to be hidden for administrators: the test reads "R".
   */
  lemma ScalarAdminRoleShowsPanel()
    ensures var form := EditForm(UserRow(2, "root", "root@example.com", None, ScalarRole(ADMIN), None));
      FirstRoleAsWritten(form.roles) == Some("R") && PanelShownAsWritten(true, form.roles)
      && !PanelShown(true, form.roles)
  {
    assert ADMIN[0] == 'R';
  }

  /**
   * The role the form stands for: its first role, a string role taken whole, and ROLE_USER
   * when there is none. The role select itself reads `roles[0]`, the first character of a
   * string role, which matches none of its options.
   */
  function SelectedRole(roles: FormRoles): (role: string)
    ensures role != ""
    ensures roles.StringRoles? && roles.name != "" ==> role == roles.name
    ensures roles.ListRoles? && roles.names != [] && roles.names[0] != "" ==> role == roles.names[0]
    ensures roles == ListRoles([]) ==> role == USER
  {
    match roles
    case ListRoles(rs) => if rs == [] || rs[0] == "" then USER else rs[0]
    case StringRoles(s) => if s == "" then USER else s
  }

  /** The panel test, reading the whole selected role. */
  function PanelShown(isAdmin: bool, roles: FormRoles): (shown: bool)
    ensures shown ==> isAdmin
    ensures roles.StringRoles? && roles.name != "" ==> (shown <==> isAdmin && roles.name != USER && roles.name != ADMIN)
    ensures roles.ListRoles? && roles.names != [] && roles.names[0] != "" ==>
              (shown <==> isAdmin && roles.names[0] != USER && roles.names[0] != ADMIN)
    ensures roles == ListRoles([]) ==> !shown
  {
    isAdmin && SelectedRole(roles) != USER && SelectedRole(roles) != ADMIN
  }

  /** The first role of a user as the table shows it, ROLE_USER when there is none. */
  function EditedRole(user: UserRow): (role: string)
    ensures role != ""
    ensures var shown := DisplayedRoles(user.roles); shown != [] && shown[0] != "" ==> role == shown[0]
  {
    var shown := DisplayedRoles(user.roles);
    if shown == [] || shown[0] == "" then USER else shown[0]
  }

  /**
   * The panel appears exactly when an administrator edits a user whose role is neither
   * ROLE_USER nor ROLE_ADMIN, whether the server sent that role as a list or as a string.
   */
  lemma PanelFollowsEditedRole(isAdmin: bool, user: UserRow)
    ensures PanelShown(isAdmin, EditForm(user).roles) <==> isAdmin && EditedRole(user) != USER && EditedRole(user) != ADMIN
  {
  }

  /** The written test and the intended one agree on every list whose first name is not empty. */
  lemma AsWrittenAgreesOnLists(isAdmin: bool, names: seq<string>)
    requires names != [] && names[0] != ""
    ensures PanelShownAsWritten(isAdmin, ListRoles(names)) == PanelShown(isAdmin, ListRoles(names))
  {
  }

  // ---------------------------------------------------------------------------------------
  // The table
  // ---------------------------------------------------------------------------------------

  /** The roles column: a list as it is, a string as a one-element list, anything else empty. */
  function DisplayedRoles(roles: RolesField): (shown: seq<string>)
    ensures roles.NoRoles? <==> shown == [] && !roles.RoleList?
    ensures roles.RoleList? ==> shown == roles.roles
    ensures roles.ScalarRole? ==> shown == [roles.role]
  {
    match roles
    case NoRoles => []
    case ScalarRole(r) => [r]
    case RoleList(rs) => rs
  }

  /** A badge of the roles column. */
  datatype Badge = Badge(text: string, variant: string, className: string)

  function RoleBadge(role: string): (badge: Badge)
    ensures badge.text == role
    ensures role == ADMIN ==> badge.variant == "destructive"
    ensures role == MANAGER ==> badge.variant == "default" && badge.className == "text-[10px] bg-purple-600 hover:bg-purple-700"
    ensures role == STAFF ==> badge.variant == "default"
    ensures role != MANAGER ==> badge.className == "text-[10px]"
    ensures role !in {ADMIN, MANAGER, STAFF} ==> badge.variant == "secondary"
  {
    if role == ADMIN then Badge(role, "destructive", "text-[10px]")
    else if role == MANAGER then Badge(role, "default", "text-[10px] bg-purple-600 hover:bg-purple-700")
    else if role == STAFF then Badge(role, "default", "text-[10px]")
    else Badge(role, "secondary", "text-[10px]")
  }

  /** The roles column: one badge per role, or a single outlined ROLE_USER badge when there are none. */
  function RoleBadges(roles: RolesField): (badges: seq<Badge>)
    ensures DisplayedRoles(roles) == [] ==> badges == [Badge(USER, "outline", "text-[10px]")]
    ensures DisplayedRoles(roles) != [] ==> |badges| == |DisplayedRoles(roles)|
    ensures forall i :: 0 <= i < |badges| && DisplayedRoles(roles) != [] ==> badges[i] == RoleBadge(DisplayedRoles(roles)[i])
  {
    var shown := DisplayedRoles(roles);
    if shown == [] then [Badge(USER, "outline", "text-[10px]")]
    else seq(|shown|, i requires 0 <= i < |shown| => RoleBadge(shown[i]))
  }

  /**
   * The badge texts are the roles the guard reads, in the same order; a user without roles
   * is labelled ROLE_USER, the role whose defaults the guard does NOT grant to them.
   */
  lemma BadgesShowNormalisedRoles(user: UserProfile)
    ensures DisplayedRoles(user.roles) != [] ==>
              |NormalisedRoles(Some(user))| == |RoleBadges(user.roles)| &&
              forall i :: 0 <= i < |RoleBadges(user.roles)| ==>
                NormalisedRoles(Some(user))[i] == Some(RoleBadges(user.roles)[i].text)
    ensures DisplayedRoles(user.roles) == [] ==>
              RoleBadges(user.roles)[0].text == USER && !HasPermission(Many(NormalisedRoles(Some(user))), "user:read")
  {
  }

  /** The delete button is disabled on the current user's own row: `user.id === currentUser?.id`. */
  function DeleteDisabled(user: UserRow, currentUser: Option<UserProfile>): (disabled: bool)
    ensures currentUser.None? ==> !disabled
    ensures disabled ==> currentUser.value.id.Some? && currentUser.value.id.value == user.id
  {
    currentUser.Some? && currentUser.value.id == Some(user.id)
  }

  /** Only the own row is protected, and nothing is while the current profile is unknown. */
  lemma OnlyOwnRowProtected(user: UserRow, currentUser: Option<UserProfile>)
    ensures DeleteDisabled(user, currentUser) <==> currentUser.Some? && currentUser.value.id.Some? && currentUser.value.id.value == user.id
    ensures currentUser.None? ==> !DeleteDisabled(user, currentUser)
  {
  }

  /** The avatar dialog's check: a file over 10 MiB is refused. */
  function AvatarAccepted(file: FileInfo): (accepted: bool)
    ensures accepted <==> file.size <= 10485760
  {
    file.size <= AVATAR_LIMIT
  }

  /** The picker's four groups cover the administrator's defaults exactly. */
  lemma PickerCoversAdminDefaults()
    ensures forall p :: (exists k :: 0 <= k < |PermissionCategories| && p in PermissionCategories[k].1) <==> p in RolePermissions[ADMIN]
  {
    forall p | p in RolePermissions[ADMIN]
      ensures exists k :: 0 <= k < |PermissionCategories| && p in PermissionCategories[k].1
    {
      if p in PermissionCategories[0].1 {
      } else if p in PermissionCategories[1].1 {
        assert 0 <= 1 < |PermissionCategories|;
      } else if p in PermissionCategories[2].1 {
        assert 0 <= 2 < |PermissionCategories|;
      } else {
        assert p in PermissionCategories[3].1;
      }
    }
  }

  // ---------------------------------------------------------------------------------------
  // The page state
  // ---------------------------------------------------------------------------------------

  class UserManagementPage {
    var users: seq<UserRow>
    var usersUnusable: bool
    var loading: bool
    var search: string
    var roleFilter: string
    var form: UserForm
    var editing: Option<UserRow>
    var avatarFile: Option<FileInfo>
    var currentUser: Option<UserProfile>
    const pager: Paging.Pager

    ghost predicate Valid()
      reads this, pager
    {
      pager.Valid() && pager.pageSize == PAGE_SIZE
      && (avatarFile.Some? ==> AvatarAccepted(avatarFile.value))
    }

    constructor()
      ensures Valid() && fresh(pager)
      ensures users == [] && !usersUnusable && loading && search == "" && roleFilter == ""
      ensures form == EmptyForm && editing.None? && avatarFile.None? && currentUser.None?
      ensures pager.page == 0 && pager.totalPages == Some(0) && pager.totalElements == Some(0)
    {
      users, usersUnusable, loading, search, roleFilter := [], false, true, "", "";
      form, editing, avatarFile, currentUser := EmptyForm, None, None, None;
      pager := new Paging.Pager(PAGE_SIZE, false);
    }

    /** The query the next fetch sends. */
    function CurrentQuery(): (q: Query)
      reads this, pager
      ensures q.page == pager.page && q.size == PAGE_SIZE
      ensures q.search == (if search == "" then None else Some(search))
      ensures q.role == (if roleFilter == "" then None else Some(roleFilter))
    {
      ListQuery(pager.page, search, roleFilter)
    }

    /** A user-list response, or None when the request failed; loading ends either way. */
    method ApplyUsersResponse(response: Option<Body<UserRow>>)
      requires Valid()
      modifies this, pager
      ensures Valid() && !loading && pager.page == old(pager.page)
      ensures response.Some? && UsersFromResponse(response.value).Loaded? ==>
                var r := UsersFromResponse(response.value);
                users == r.items && !usersUnusable && pager.totalPages == r.totalPages && pager.totalElements == r.totalElements
      ensures response.Some? && UsersFromResponse(response.value).Unusable? && response.value.content.NotAList? ==>
                usersUnusable && pager.totalPages == response.value.totalPages && pager.totalElements == response.value.totalElements
      ensures response.Some? && UsersFromResponse(response.value).Unusable? && response.value.content.Falsy? ==>
                usersUnusable && pager.totalPages == Some(1) && pager.totalElements.None?
      ensures response.None? ==>
                users == old(users) && usersUnusable == old(usersUnusable)
                && pager.totalPages == old(pager.totalPages) && pager.totalElements == old(pager.totalElements)
      ensures search == old(search) && roleFilter == old(roleFilter) && form == old(form) && editing == old(editing)
      ensures avatarFile == old(avatarFile) && currentUser == old(currentUser)
    {
      if response.Some? {
        var outcome := UsersFromResponse(response.value);
        match outcome
        case Loaded(items, totalPages, totalElements) =>
          users, usersUnusable := items, false;
          pager.SetTotals(totalPages, totalElements);
        case Unusable =>
          usersUnusable := true;
          if response.value.content.NotAList? {
            pager.SetTotals(response.value.totalPages, response.value.totalElements);
          } else {
            pager.SetTotals(Some(1), None);
          }
        case Unchanged =>
      }
      loading := false;
    }

    /**
     * A search is submitted: back to the first page. The handler fetches at once with the
     * page it still sees, the one before the reset (`sent`); the page change then triggers a
     * second fetch with page 0 exactly when the page was not already 0 (`refetch`). The fetch
     * sets the loading flag before it awaits the reply.
     */
    method SubmitSearch(text: string) returns (sent: Query, refetch: bool)
      requires Valid()
      modifies this, pager
      ensures Valid() && search == text && pager.page == 0
      ensures sent == ListQuery(old(pager.page), text, roleFilter)
      ensures refetch <==> old(pager.page) != 0
      ensures CurrentQuery() == ListQuery(0, text, roleFilter)
      ensures users == old(users) && usersUnusable == old(usersUnusable)
      ensures pager.totalPages == old(pager.totalPages) && pager.totalElements == old(pager.totalElements)
      ensures roleFilter == old(roleFilter) && form == old(form) && editing == old(editing)
      ensures avatarFile == old(avatarFile) && currentUser == old(currentUser)
      ensures loading
    {
      search := text;
      sent := ListQuery(pager.page, search, roleFilter);
      loading := true;
      refetch := pager.page != 0;
      pager.Reset();
    }

    /** The role filter changes: back to the first page. */
    method SetRoleFilter(role: string)
      requires Valid()
      modifies this, pager
      ensures Valid() && roleFilter == role && pager.page == 0
      ensures CurrentQuery() == ListQuery(0, search, role)
      ensures users == old(users) && usersUnusable == old(usersUnusable)
      ensures pager.totalPages == old(pager.totalPages) && pager.totalElements == old(pager.totalElements)
      ensures search == old(search) && form == old(form) && editing == old(editing)
      ensures avatarFile == old(avatarFile) && currentUser == old(currentUser) && loading == old(loading)
    {
      roleFilter := role;
      pager.Reset();
    }

    method OpenEditDialog(user: UserRow)
      requires Valid()
      modifies this
      ensures Valid() && editing == Some(user) && form == EditForm(user)
      ensures users == old(users) && usersUnusable == old(usersUnusable) && search == old(search) && roleFilter == old(roleFilter)
      ensures avatarFile == old(avatarFile) && currentUser == old(currentUser) && loading == old(loading)
    {
      editing := Some(user);
      form := EditForm(user);
    }

    method SetPermissionChecked(permission: string, checked: bool)
      requires Valid()
      modifies this
      ensures Valid() && form == old(form).(permissions := SetChecked(old(form).permissions, permission, checked))
      ensures users == old(users) && usersUnusable == old(usersUnusable) && editing == old(editing)
      ensures search == old(search) && roleFilter == old(roleFilter)
      ensures avatarFile == old(avatarFile) && currentUser == old(currentUser) && loading == old(loading)
    {
      form := form.(permissions := SetChecked(form.permissions, permission, checked));
    }

    /** A saved create or update: the dialog closes and the form is reset. */
    method OnSaved()
      requires Valid()
      modifies this
      ensures Valid() && form == EmptyForm && editing.None?
      ensures users == old(users) && usersUnusable == old(usersUnusable) && search == old(search) && roleFilter == old(roleFilter)
      ensures avatarFile == old(avatarFile) && currentUser == old(currentUser) && loading == old(loading)
    {
      form, editing := EmptyForm, None;
    }

    /** A file chosen in the avatar dialog; one over the limit is refused and not kept. */
    method SelectAvatarFile(file: Option<FileInfo>) returns (refused: bool)
      requires Valid()
      modifies this
      ensures Valid()
      ensures refused <==> file.Some? && !AvatarAccepted(file.value)
      ensures avatarFile == (if file.Some? && !refused then file else old(avatarFile))
      ensures users == old(users) && usersUnusable == old(usersUnusable) && form == old(form) && editing == old(editing)
      ensures search == old(search) && roleFilter == old(roleFilter) && currentUser == old(currentUser) && loading == old(loading)
    {
      refused := false;
      if file.Some? {
        if file.value.size > AVATAR_LIMIT {
          refused := true;
        } else {
          avatarFile := file;
        }
      }
    }

    /**
     * Whether the extra-permission panel is shown for the current form, under the corrected
     * test; it agrees with the test as written on every form whose roles are a list with a
     * non-empty first name.
     */
    function PermissionPanelShown(): (shown: bool)
      reads this
      ensures shown ==> IsCurrentUserAdmin(currentUser)
      ensures form.roles.ListRoles? && form.roles.names != [] && form.roles.names[0] != "" ==>
                shown == PanelShownAsWritten(IsCurrentUserAdmin(currentUser), form.roles)
    {
      PanelShown(IsCurrentUserAdmin(currentUser), form.roles)
    }

    /** The profile request of the mount effect; a failed request leaves the current user unset. */
    method ApplyCurrentProfile(fetched: Option<UserProfile>)
      requires Valid()
      modifies this
      ensures Valid()
      ensures currentUser == (if fetched.Some? then fetched else old(currentUser))
      ensures fetched.Some? ==> forall user :: DeleteDisabled(user, currentUser) <==> fetched.value.id == Some(user.id)
      ensures users == old(users) && usersUnusable == old(usersUnusable) && form == old(form) && editing == old(editing)
      ensures loading == old(loading)
      ensures search == old(search) && roleFilter == old(roleFilter) && avatarFile == old(avatarFile)
    {
      if fetched.Some? {
        currentUser := fetched;
      }
    }

    /** The role select: the form's roles become the one chosen role. */
    method SelectRole(role: string)
      requires Valid()
      modifies this
      ensures Valid() && form == old(form).(roles := ListRoles([role]))
      ensures role != "" ==> SelectedRole(form.roles) == role
      ensures users == old(users) && usersUnusable == old(usersUnusable) && editing == old(editing)
      ensures search == old(search) && roleFilter == old(roleFilter)
      ensures avatarFile == old(avatarFile) && currentUser == old(currentUser) && loading == old(loading)
    {
      form := form.(roles := ListRoles([role]));
    }
  }
}
