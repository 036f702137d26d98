# Admin console: authorization, session and page logic

This project models the client-side authorization and session logic of a React
administration console, together with the small list and record helpers of its
administration pages. The model is written in Dafny, and its properties are proved.

- **Role catalog** (`Permissions`). A rank per role and default permissions per role.
  Role names are plain strings, so a name the catalog does not know, or `undefined`,
  has no rank and grants nothing.
- **Decisions built on the catalog.** Each one consults a server-supplied permission
  list first, and falls back to the roles only when there is no list:
  - the permission guard (`PermissionGuard`);
  - the permission hook, which has no fallback to the roles (`UsePermissions`);
  - the sidebar filter (`AdminLayout`);
  - the protected-route wrapper (`App`);
  - the access checks of the role and permission pages.
- **Session store** (`AuthStore`). Five in-memory fields over the browser's durable
  key/value storage.
  - Each action is a specification function from the old state to the new one.
  - The class `AuthStore.Store` performs the actions in place and is proved to follow
    those functions.
  - The OAuth callback (`AuthCallback`) is a second way into the session.
- **Administration pages.** There is one module for each page: roles, users, orders,
  permissions and the profile. Each module holds:
  - the page's pure helpers, as functions with lemmas;
  - the page state, as a class whose handlers are methods specified by those functions.
- **Shared modules.**
  - The pagination arithmetic is shared by the four list pages (`Paging`).
  - So are the response shapes the list endpoints answer with (`Responses`).

The host language's behaviour is modelled explicitly where it matters:
- `x || d` truthiness, where the empty string is falsy and an empty array is truthy;
- `Array.isArray(r) ? r : [r]` wrapping;
- record lookups that may yield `undefined`;
- `String.replace`, which replaces only the first occurrence.

## Model

| member | source | states |
|---|---|---|
| Profile.NormalisedRoles | src/components/PermissionGuard.tsx:36-38 | A role list is kept as it is, a single role is wrapped in a list, and a missing profile or missing roles give `[undefined]`; a present element implies a profile that has roles |
| Profile.RolesIncludeIsNormalisedMembership | src/App.tsx:55-57 | Naming a role in the field, whether as a list or as a single role, is the same as finding it among the normalised roles |
| JsArray.Without | src/pages/RoleManagement.tsx:238 | `filter(p => p !== v)` is an order-preserving sub-sequence of the list that holds every copy of every element other than `v` and no `v`; it is the list itself when `v` is absent |
| JsArray.FilterKeepsMultiplicity | src/pages/RoleManagement.tsx:238 | `filter(p)` keeps every copy of each element satisfying `p` and no copy of any other |
| JsArray.WithoutAppended | src/pages/RoleManagement.tsx:237-239 | Removing a value that was appended to a list free of it gives back the list |
| Permissions.HasMinimumRole | src/lib/permissions.ts:33-36 | True iff some element is a known role whose rank is at least the rank of the minimum role, which must itself be known |
| Permissions.HasPermission | src/lib/permissions.ts:39-42 | True iff some element is a known role whose default list contains the permission |
| Permissions.HasPermissionFromApi | src/lib/permissions.ts:45-48 | False for an absent list; otherwise membership in the list |
| Permissions.HighestFrom | src/lib/permissions.ts:51-55 | The running maximum of the reduce is a ranked role, at least the starting value, and either the start or an element; it ranks at least as high as every known element, and it is the earliest of the highest-ranked elements |
| Permissions.GetHighestRole | src/lib/permissions.ts:51-55 | ROLE_USER for an empty list; otherwise a known role of the list (or ROLE_USER) ranking at least as high as every known element, the earliest one on ties |
| Permissions.GetRoleLabel | src/lib/permissions.ts:58-66 | Each of the four roles gets its fixed label, which differs from the role name; any other name is returned unchanged |
| Permissions.BareRoleIsSingletonList | src/lib/permissions.ts:33-42 | A bare role behaves exactly like a one-element list in both role predicates |
| Permissions.HasMinimumRoleIsMaxRank | src/lib/permissions.ts:33-36 | The minimum-role check is a comparison of the greatest known rank of the list with the rank of the minimum role |
| Permissions.HasMinimumRoleMonotone | src/lib/permissions.ts:33-36 | Meeting a role requirement implies meeting every lower-ranked requirement |
| Permissions.UnknownRolesGrantNothing | src/lib/permissions.ts:33-42 | Lists of unknown or undefined names meet no requirement and grant no permission |
| Permissions.DegenerateArgumentsAreDenied | src/lib/permissions.ts:33-42 | An unknown minimum role is never met; an empty role list meets nothing and grants nothing |
| Permissions.DefaultPermissionsNested | src/lib/permissions.ts:10-30 | The default lists are nested: USER within STAFF within MANAGER within ADMIN |
| Permissions.HasPermissionMonotoneInRank | src/lib/permissions.ts:10-42 | A permission one role grants is granted by every role ranked at least as high |
| Permissions.AdminOnlyPermissions | src/lib/permissions.ts:10-30 | `role:manage`, `system:config` and `audit:read` are granted by ROLE_ADMIN and by no other name |
| Permissions.RanksAreDistinct | src/lib/permissions.ts:3-8 | No two known roles share a rank |
| Permissions.HasPermissionAsWritten | src/lib/permissions.ts:39-42 | The lookup as written returns the intended answer on lists free of inherited member names; it throws only when such a name is present |
| Permissions.InheritedRoleNameThrows | src/lib/permissions.ts:41 | A role named `constructor` makes the check as written throw, where the intended answer is false |
| AuthStore.TokenLookup | src/stores/authStore.ts:46-52 | The in-memory token when truthy, else the stored one when truthy, else null; a returned token is never empty |
| AuthStore.SetTokensEffect | src/stores/authStore.ts:34-39 | setTokens writes both keys and both memory tokens and sets the authenticated flag; the profile, the initialised flag and every other key are unchanged |
| AuthStore.GetAfterSetTokens | src/stores/authStore.ts:34-52 | After setTokens with non-empty tokens, both getters return exactly those tokens |
| AuthStore.EmptyTokenReadsAsNull | src/stores/authStore.ts:46-48 | An empty access token is written to memory and storage, but the getter then reads null |
| AuthStore.SetUserProfileEffect | src/stores/authStore.ts:41-44 | setUserProfile changes only the profile and its key |
| AuthStore.LogoutEffect | src/stores/authStore.ts:54-59 | logout removes the three keys and keeps every other key; it signs the session out, marks it initialised, and both getters then return null |
| AuthStore.InitializeAuthEffect | src/stores/authStore.ts:61-77 | With both stored tokens truthy, the session is signed in with them and has no profile when none is stored; otherwise only the initialised flag changes; storage is only read |
| AuthStore.InitializeAuthIdempotent | src/stores/authStore.ts:61-77 | Running initializeAuth twice is the same as running it once |
| AuthStore.ActionsKeepInvariant | src/stores/authStore.ts:28-77 | Every action, and the storage wipe of the sign-out service, keeps "authenticated implies both tokens are set" |
| AuthStore.ReloadRestoresTokens | src/stores/authStore.ts:61-73 | After setTokens with non-empty tokens, a fresh page load plus initializeAuth is signed in with those tokens, and the getters return them |
| AuthStore.ReloadRestoresProfile | src/stores/authStore.ts:41-73 | With a codec that round-trips, the tokens and the stored profile come back equal after a reload |
| AuthStore.ReloadAfterLogoutStaysSignedOut | src/stores/authStore.ts:54-77 | After logout, a reload stays signed out |
| AuthStore.ClearStorageKeepsMemory | src/services/authService.ts:11-14 | The sign-out service's storage wipe leaves an authenticated session in memory, but a reload comes back signed out |
| AuthStore.Store.constructor | src/stores/authStore.ts:27-32 | A page load: empty memory over the storage that survived |
| AuthStore.Store.SetTokens | src/stores/authStore.ts:34-39 | The new state is setTokens' specification of the old state; the invariant is kept |
| AuthStore.Store.SetUserProfile | src/stores/authStore.ts:41-44 | The new state is setUserProfile's specification, with the profile encoded |
| AuthStore.Store.GetAccessToken | src/stores/authStore.ts:46-48 | Returns the token lookup of the current state |
| AuthStore.Store.GetRefreshToken | src/stores/authStore.ts:50-52 | Returns the token lookup of the current state |
| AuthStore.Store.Logout | src/stores/authStore.ts:54-59 | The new state is logout's specification of the old state |
| AuthStore.Store.InitializeAuth | src/stores/authStore.ts:61-77 | The new state is initializeAuth's specification; once signed in, a profile is present exactly when one is stored |
| AuthStore.Store.ClearStorage | src/services/authService.ts:12 | Storage becomes empty and memory is unchanged |
| PermissionGuard.Render | src/components/PermissionGuard.tsx:60-64 | The children are rendered iff access is granted; when denied, the fallback is rendered, or nothing if there is none |
| PermissionGuard.HasAccess | src/components/PermissionGuard.tsx:40-58 | No requirement grants; a permission is decided by the profile list when there is one and by the role defaults otherwise; a minimum role alone by the minimum-role check; without a profile every non-empty requirement is denied |
| PermissionGuard.NoProfileMeetsNothing | src/components/PermissionGuard.tsx:36-38 | Without a profile the normalised roles meet no minimum role and grant no permission |
| PermissionGuard.NoRequirementGrants | src/components/PermissionGuard.tsx:40-58 | With neither a permission nor a minimum role (the empty string counts as absent), everyone is granted access |
| PermissionGuard.ApiListIsAuthoritative | src/components/PermissionGuard.tsx:44-46 | With a permission and a profile list, access is membership in the list whatever the roles; an empty list denies everything |
| PermissionGuard.RolesDecideWithoutList | src/components/PermissionGuard.tsx:49-51 | With a permission and no list, access is the role-default check over the normalised roles, and a single role is checked as the bare role |
| PermissionGuard.MinRoleOnly | src/components/PermissionGuard.tsx:56-57 | With only a minimum role, access is the minimum-role check over the normalised roles |
| PermissionGuard.PermissionOverridesMinRole | src/components/PermissionGuard.tsx:42-58 | When a permission is required, the minimum role makes no difference |
| PermissionGuard.NoProfileDenied | src/components/PermissionGuard.tsx:36-57 | Without a profile, every non-empty requirement is denied |
| PermissionGuard.StaffDefaults | src/components/PermissionGuard.tsx:49-51 | A STAFF user without a list passes `report:create` and fails `user:create` |
| UsePermissions.HookHasPermission | src/hooks/usePermissions.ts:10-19 | False without a profile or a list; otherwise membership in the list |
| UsePermissions.HasAnyPermission | src/hooks/usePermissions.ts:21-23 | True iff some listed permission passes; false for an empty list |
| UsePermissions.HasAllPermissions | src/hooks/usePermissions.ts:25-27 | True iff every listed permission passes; true for an empty list |
| UsePermissions.PermissionsList | src/hooks/usePermissions.ts:30 | The profile's list, or empty when there is none |
| UsePermissions.HookIsListMembership | src/hooks/usePermissions.ts:10-30 | The hook's check is membership in the list it exposes, and it equals the catalog's API check |
| UsePermissions.AllImpliesAny | src/hooks/usePermissions.ts:21-27 | On a non-empty list, the all-check implies the any-check |
| UsePermissions.HookAgreesWithGuardOnlyWithList | src/hooks/usePermissions.ts:14-16 | When the profile has a list, the hook and the guard agree for every permission |
| UsePermissions.HookHasNoRoleFallback | src/hooks/usePermissions.ts:18 | Without a list they differ: an administrator passes the guard's `user:delete` check but fails the hook's |
| AdminLayout.MenuItems | src/layouts/AdminLayout.tsx:48-69 | The menu is the order-preserving sub-sequence of the six entries that are visible to the user |
| AdminLayout.IsAdmin | src/layouts/AdminLayout.tsx:44-45 | False without a profile; otherwise true iff the role field, list or single role, names ROLE_ADMIN |
| AdminLayout.ItemVisible | src/layouts/AdminLayout.tsx:48-66 | Administrators see every entry and an entry without requirement is always seen; otherwise a permission entry follows the permission hook and a role entry the minimum-role check |
| AdminLayout.HeaderTitle | src/layouts/AdminLayout.tsx:142 | The name of the first entry whose path is the current path (or "Dashboard" if that name is empty); "Dashboard" when no entry matches |
| AdminLayout.SidebarRoleLabel | src/layouts/AdminLayout.tsx:124 | Nothing without a profile; otherwise the label of the first role, or ROLE_USER's label when the first role is missing or empty |
| AdminLayout.AdminSeesEverything | src/layouts/AdminLayout.tsx:45-50 | A user whose roles include ROLE_ADMIN sees all six entries, in order |
| AdminLayout.DashboardAlwaysFirst | src/layouts/AdminLayout.tsx:52 | Dashboard has no requirement, so it is always shown, and shown first |
| AdminLayout.PermissionEntryNeedsList | src/layouts/AdminLayout.tsx:55-61 | For a non-administrator, an entry with a permission requirement is shown iff the profile list holds the permission, which is the hook's answer |
| AdminLayout.RoleEntryUsesMinimumRole | src/layouts/AdminLayout.tsx:64-66 | An entry with only a role requirement is shown iff the roles reach that role |
| AdminLayout.NoListNoAdminSeesOnlyDashboard | src/layouts/AdminLayout.tsx:34-61 | A non-administrator without a list sees only Dashboard, whatever the roles |
| AdminLayout.HiddenPageTitledDashboard | src/layouts/AdminLayout.tsx:142 | For such a user, the roles page is titled "Dashboard" |
| AdminLayout.SidebarDefaultsToUserLabel | src/layouts/AdminLayout.tsx:124 | A profile with no roles, or an empty role list, is labelled as a plain user |
| App.HasAdminAccess | src/App.tsx:54-58 | True iff the email is `admin@admin.com` or the role field (a list or a single role) names ROLE_ADMIN, ROLE_MANAGER or ROLE_STAFF |
| App.ProtectedLayout | src/App.tsx:50-68 | Unauthenticated users go to /login before any other check. Next come the initialising screen and the profile-loading screen. A required admin space without access goes home. Otherwise the admin layout is shown iff admin access holds |
| App.RouteFor | src/App.tsx:74-113 | Every /admin/ path is protected and requires admin access; only "/" is protected without it; every redirect goes to "/" or into /admin/ |
| App.RedirectsLandOnProtectedRoutes | src/App.tsx:90-113 | Every redirect of the route table lands on a protected route |
| App.AdminAccessIsStaffRank | src/App.tsx:54-58 | Leaving the email aside, admin access is the minimum-role check against ROLE_STAFF over the normalised roles |
| App.UserRoleNeverReachesAdmin | src/App.tsx:60-62 | A user whose only role is ROLE_USER never gets a layout on an /admin/ route |
| App.LayoutFollowsAdminAccess | src/App.tsx:64-68 | Past the loading checks and the admin gate, the layout follows admin access |
| App.ProtectedLayoutState.constructor | src/App.tsx:20-21 | The wrapper starts with no profile and loading |
| App.ProtectedLayoutState.Mount | src/App.tsx:24-26 | The mount effect is initializeAuth on the shared store |
| App.ProtectedLayoutState.OnAuthenticationChange | src/App.tsx:28-48 | When signed out, nothing but loading changes. A fetched profile is kept and written to the store. A failed fetch wipes storage and navigates to /login. Loading ends in every case |
| App.ScreenAfterLoad | src/App.tsx:50-68 | Once the session is hydrated and loading is over, the screen is the decision chain applied to "both tokens persisted"; it is the login redirect exactly when they are not |
| App.LoadPage | src/App.tsx:24-68 | The intended load, with the session hydrated before the first decision: it shows the screen the persisted storage and the fetch outcome determine, and navigates to /login exactly when a signed-in session fails to fetch the profile |
| App.FirstScreenAsWritten | src/App.tsx:50 | The first render of a freshly loaded wrapper is the login redirect, whatever is stored |
| App.LoadPageAsWritten | src/App.tsx:20-50 | As written, a load ends on /login with the first render's redirect, even when the mount effect then signs the session in from the stored tokens |
| App.ReloadOfSignedInSessionLandsOnLogin | src/App.tsx:24-50 | With both tokens stored and an administrator's profile, the intended load shows the admin layout, while the first render as written already redirects to /login |
| AuthCallback.HandleCallback | src/pages/AuthCallback.tsx:9-20 | With both tokens truthy, the store receives exactly those tokens and the target is "/"; otherwise the store is unchanged and the target is the failure URL |
| AuthCallback.CallbackOnFreshLoad | src/pages/AuthCallback.tsx:14-16 | After a successful callback, the getters return the tokens, and a reload is signed in |
| Paging.PreviousPage | src/pages/RoleManagement.tsx:434 | Never below 0; one less from page 1 on |
| Paging.PreviousDisabled | src/pages/RoleManagement.tsx:435 | On a valid page, "Previous" is disabled exactly where it would not move |
| Paging.NextDisabled | src/pages/RoleManagement.tsx:446 | Never disabled without a total; with one, disabled exactly where the clamped "Next" would not advance |
| Paging.ClampedNextPage | src/pages/OrderManagement.tsx:374 | At most the last page and at most one more than the current page; equal to one of the two |
| Paging.ShownTotalPages | src/pages/RoleManagement.tsx:440 | The page count, or 1 when it is missing or zero |
| Paging.ShownRange | src/pages/RoleManagement.tsx:428 | Starts at page·size+1; ends at the smaller of the page end and the total; the end is missing exactly when the total is |
| Paging.ShownRangeWithinTotals | src/pages/PermissionManagement.tsx:382 | On a page starting inside the list, the range is non-empty, lies within 1..total, and covers at most one page |
| Paging.ConsecutiveRangesTile | src/pages/UserManagement.tsx:566 | The next page starts right after this one ends |
| Paging.NavigationStaysInRange | src/pages/OrderManagement.tsx:358-375 | From a page inside 0..totalPages-1, "Previous", an enabled "Next" and the clamped "Next" all stay inside it |
| Paging.MissingTotalKeepsNextEnabled | src/pages/RoleManagement.tsx:440-446 | Without a total, "Next" is never disabled and the label shows one page |
| Paging.Pager.constructor | src/pages/RoleManagement.tsx:86-89 | Page 0 and zero totals |
| Paging.Pager.Previous | src/pages/RoleManagement.tsx:434-435 | A disabled button does nothing; otherwise the page becomes the previous page; the page never grows |
| Paging.Pager.Next | src/pages/RoleManagement.tsx:445-446 | A disabled button does nothing; otherwise the page advances, clamped where the page clamps; a page inside the total stays inside it |
| Paging.Pager.Reset | src/pages/PermissionManagement.tsx:294-296 | Back to page 0; totals are kept |
| Paging.Pager.SetTotals | src/pages/RoleManagement.tsx:107-108 | The totals are replaced and the page is kept |
| Responses.ContentOnly | src/pages/RoleManagement.tsx:105-109 | Only an array `content` loads the list, with `totalPages` and `totalItems`; a non-array `content` is unusable; anything else changes nothing |
| Responses.ContentOnlyIgnoresOtherShapes | src/pages/PermissionManagement.tsx:95-99 | A bare array, or an object without `content`, leaves the list as it was |
| RoleManagement.AccessRedirect | src/pages/RoleManagement.tsx:74-83 | No redirect iff the page's access check passes; otherwise the target is /admin/dashboard |
| RoleManagement.HasAccess | src/pages/RoleManagement.tsx:74-77 | The guard's `role:manage` decision; with a profile list, membership of `role:manage` in it; false without a profile |
| RoleManagement.AccessIsGuardCheck | src/pages/RoleManagement.tsx:75-77 | The page's check is the guard's `role:manage` check, whatever minimum role is passed |
| RoleManagement.WithoutListOnlyAdministrators | src/pages/RoleManagement.tsx:77 | Without a list, access holds iff the roles include ROLE_ADMIN |
| RoleManagement.TogglePermission | src/pages/RoleManagement.tsx:234-241 | The name's membership flips, and every other name's membership is unchanged |
| RoleManagement.ToggleTwiceRestores | src/pages/RoleManagement.tsx:234-241 | Toggling an unselected name twice gives back the original list |
| RoleManagement.ToggleTwiceMovesToEnd | src/pages/RoleManagement.tsx:234-241 | Toggling a selected name twice removes its duplicates and moves it to the end |
| RoleManagement.NamesInMembers | src/pages/RoleManagement.tsx:134-138 | A name is grouped under a category iff some permission of that category carries it |
| RoleManagement.NamesInAppend | src/pages/RoleManagement.tsx:134-138 | Grouping distributes over concatenation, so the server's order is kept within each category |
| RoleManagement.GroupByCategory | src/pages/RoleManagement.tsx:127-138 | The keys are exactly the four categories, and each holds its permissions' names in server order |
| RoleManagement.UnknownCategoryDropped | src/pages/RoleManagement.tsx:135 | A permission of an unknown category appears in no group |
| RoleManagement.RoleColor | src/pages/RoleManagement.tsx:243-248 | ADMIN is destructive, MANAGER default, STAFF secondary, and any other name outline |
| RoleManagement.PrivilegedRolesDistinguished | src/pages/RoleManagement.tsx:243-248 | The three privileged roles get three distinct variants, none of them outline |
| RoleManagement.CanDeleteRole | src/pages/RoleManagement.tsx:389 | A catalog role can be deleted iff it ranks strictly between the bottom and the top; any other name can be |
| RoleManagement.NameEditable | src/pages/RoleManagement.tsx:472 | The name is editable when creating, and when editing exactly for a role that can be deleted |
| RoleManagement.BuiltInRolesAreTheExtremes | src/pages/RoleManagement.tsx:389 | The undeletable roles are exactly the top and bottom ranks, and exactly the roles whose name cannot be edited |
| RoleManagement.EditForm | src/pages/RoleManagement.tsx:224-228 | Name and description as loaded; the permissions, or [] when there are none |
| RoleManagement.RoleManagementPage.constructor | src/pages/RoleManagement.tsx:67-97 | Empty list, loading, empty form, four empty groups, page 0 of 0 with 0 elements |
| RoleManagement.RoleManagementPage.PagerVisible | src/pages/RoleManagement.tsx:425 | The pager shows only once loading is over, and then exactly when the list is non-empty |
| RoleManagement.RoleManagementPage.ApplyRolesResponse | src/pages/RoleManagement.tsx:99-120 | An array `content` replaces the list and totals; a non-array `content` is not a usable list but still sets the totals; a failed or ignored response keeps them; loading ends; the page is kept; afterwards the pager shows exactly when the list is non-empty |
| RoleManagement.RoleManagementPage.ApplyCatalog | src/pages/RoleManagement.tsx:122-144 | Each category's group is the catalog's names of that category |
| RoleManagement.RoleManagementPage.Toggle | src/pages/RoleManagement.tsx:234-241 | Only the form's permissions change, by the toggle |
| RoleManagement.RoleManagementPage.OpenEditDialog | src/pages/RoleManagement.tsx:218-232 | Editing the role, with the form taken from the loaded role |
| UserManagement.UsersFromResponse | src/pages/UserManagement.tsx:110-118 | A `content` array loads with its totals; a bare array is one page holding the whole list; any other object is not a usable list; no response is ignored |
| UserManagement.BareArrayIsOnePage | src/pages/UserManagement.tsx:114-118 | A bare array gives page 1 of 1 with both buttons disabled, whatever its length |
| UserManagement.EveryResponseReplacesTheList | src/pages/UserManagement.tsx:110-118 | A bare array that the role and permission pages ignore is loaded here |
| UserManagement.ListQuery | src/pages/UserManagement.tsx:100-105 | An empty search or role filter is left out of the query; the page and size are sent |
| UserManagement.PermissionsPayload | src/pages/UserManagement.tsx:153 | null iff the selection is empty, otherwise the selection itself |
| UserManagement.PayloadGrantsSelection | src/pages/UserManagement.tsx:181 | Once stored, a non-empty payload grants exactly the selection; an empty one leaves the role defaults deciding |
| UserManagement.CreatePayload | src/pages/UserManagement.tsx:148-154 | The form's fields as they are, with the permissions null iff none are selected |
| UserManagement.UpdatePayload | src/pages/UserManagement.tsx:177-182 | The same without the password |
| UserManagement.EditForm | src/pages/UserManagement.tsx:265-274 | Username and email are copied and the password cleared. A role list is kept as it is, even when empty; missing roles or an empty role string become [ROLE_USER]; any other single role is kept as a string. Permissions default to [] |
| UserManagement.SetChecked | src/pages/UserManagement.tsx:350-355 | Checking appends the name; unchecking gives the order-preserving sub-sequence holding every copy of every other name and none of this one |
| UserManagement.ClickIsToggle | src/pages/UserManagement.tsx:349-355 | A click on a checkbox that shows the current selection is the role page's toggle |
| UserManagement.CurrentUserAdminIsLayoutAdmin | src/pages/UserManagement.tsx:276-279 | The page's administrator test is the sidebar's |
| UserManagement.IsCurrentUserAdmin | src/pages/UserManagement.tsx:276-279 | The page's administrator test is the sidebar's |
| UserManagement.FirstRoleAsWritten | src/pages/UserManagement.tsx:336 | `roles[0]` is the first name of a list but the first character of a string |
| UserManagement.PanelShownAsWritten | src/pages/UserManagement.tsx:336 | As written, an administrator sees the panel for every role string and for an empty list; for a non-empty list, iff its first name is neither ROLE_USER nor ROLE_ADMIN |
| UserManagement.ScalarAdminRoleShowsPanel | src/pages/UserManagement.tsx:629 | Editing a user whose role arrived as the string "ROLE_ADMIN" shows the panel as written, but not as intended |
| UserManagement.SelectedRole | src/pages/UserManagement.tsx:327 | The role the form stands for: its first role, a string taken whole, ROLE_USER when there is none; never empty |
| UserManagement.PanelShown | src/pages/UserManagement.tsx:336 | Only administrators see it; for a role string or a list with a non-empty first name, iff that role is neither ROLE_USER nor ROLE_ADMIN; never for an empty list |
| UserManagement.EditedRole | src/pages/UserManagement.tsx:470-472 | The first role the table shows, or ROLE_USER |
| UserManagement.PanelFollowsEditedRole | src/pages/UserManagement.tsx:336 | The intended panel appears iff an administrator edits a user whose role is neither ROLE_USER nor ROLE_ADMIN, whether it arrived as a list or a string |
| UserManagement.AsWrittenAgreesOnLists | src/pages/UserManagement.tsx:629 | The written and the intended test agree on every list whose first name is not empty |
| UserManagement.DisplayedRoles | src/pages/UserManagement.tsx:470-472 | A list is shown as it is, a string as a one-element list, and anything else as nothing |
| UserManagement.RoleBadge | src/pages/UserManagement.tsx:476-490 | The badge shows the role; ADMIN is destructive; MANAGER and STAFF are default, MANAGER purple; any other role is secondary |
| UserManagement.RoleBadges | src/pages/UserManagement.tsx:474-495 | One badge per shown role, or a single outlined ROLE_USER badge when none is shown |
| UserManagement.BadgesShowNormalisedRoles | src/pages/UserManagement.tsx:494 | The badge texts are the guard's normalised roles, in order; a user without roles is labelled ROLE_USER although the guard grants them no default |
| UserManagement.OnlyOwnRowProtected | src/pages/UserManagement.tsx:534 | Delete is disabled exactly on the current user's own row, and on no row while the current user is unknown |
| UserManagement.DeleteDisabled | src/pages/UserManagement.tsx:534 | Never disabled while the current user is unknown; a disabled row carries the current user's id |
| UserManagement.AvatarAccepted | src/pages/UserManagement.tsx:725 | A file is accepted iff it holds at most 10485760 bytes |
| UserManagement.PickerCoversAdminDefaults | src/pages/UserManagement.tsx:52-57 | The picker's four groups hold exactly the administrator's default permissions |
| UserManagement.UserManagementPage.constructor | src/pages/UserManagement.tsx:60-86 | Empty list, loading, no search or filter, the empty form, page 0 of 0 with 0 elements |
| UserManagement.UserManagementPage.CurrentQuery | src/pages/UserManagement.tsx:100-105 | The page and the size; the search and the role filter only when non-empty |
| UserManagement.UserManagementPage.ApplyUsersResponse | src/pages/UserManagement.tsx:97-129 | The list and totals follow the response shape; a failed request keeps them; loading ends; the page is kept |
| UserManagement.UserManagementPage.SubmitSearch | src/pages/UserManagement.tsx:139-143 | The search is set and the page returns to 0. The immediate fetch carries the new search with the page from before the reset; a second fetch with page 0 follows exactly when that page was not 0. The fetch sets the loading flag. The list, its unusable flag and the totals are kept |
| UserManagement.UserManagementPage.SetRoleFilter | src/pages/UserManagement.tsx:403-406 | The filter is set and the page returns to 0; the next query carries the filter; the list, its unusable flag and the totals are kept |
| UserManagement.UserManagementPage.OpenEditDialog | src/pages/UserManagement.tsx:265-274 | Editing the user, with the form from the edit-form rule; the list and its unusable flag are kept |
| UserManagement.UserManagementPage.SetPermissionChecked | src/pages/UserManagement.tsx:350-355 | Only the form's permissions change, by the checkbox rule; the list and its unusable flag are kept |
| UserManagement.UserManagementPage.OnSaved | src/pages/UserManagement.tsx:183-184 | The dialog closes and the form is reset; the list and its unusable flag are kept |
| UserManagement.UserManagementPage.SelectAvatarFile | src/pages/UserManagement.tsx:722-734 | A file over 10 MiB is refused and not kept; an accepted file replaces the chosen one; the list and its unusable flag are kept |
| UserManagement.UserManagementPage.PermissionPanelShown | src/pages/UserManagement.tsx:629 | The panel under the corrected test: only for an administrator, and agreeing with the test as written whenever the roles are a list with a non-empty first name |
| UserManagement.UserManagementPage.ApplyCurrentProfile | src/pages/UserManagement.tsx:88-95 | A fetched profile becomes the current user, after which exactly the rows with its id have delete disabled; a failed request keeps the current user; the list and its unusable flag are kept |
| UserManagement.UserManagementPage.SelectRole | src/pages/UserManagement.tsx:327-328 | The form's roles become the one chosen role, which is then the selected role; the list and its unusable flag are kept |
| OrderManagement.CountOr | src/pages/OrderManagement.tsx:74 | The count when present and non-zero, else the fallback |
| OrderManagement.ItemsOr | src/pages/OrderManagement.tsx:73 | The items of an array field, else [] |
| OrderManagement.OrdersFromResponse | src/pages/OrderManagement.tsx:71-92 | Branches, tried in order: `content` with `totalPages` or 0; `orders` with `totalPages` or 1; a bare array as one page; anything else, or an error, gives no orders and 0 pages |
| OrderManagement.PagerVisible | src/pages/OrderManagement.tsx:358 | The pager shows iff "Next" is enabled on the first page |
| OrderManagement.OnlyPagedResponsesShowPager | src/pages/OrderManagement.tsx:358 | The pager shows only for an object reporting more than one page |
| OrderManagement.OrdersComeFromTheResponse | src/pages/OrderManagement.tsx:71-88 | Every order shown comes from the list field the response carries |
| OrderManagement.AsciiUpper | src/pages/OrderManagement.tsx:219 | Same length; each lower-case letter is raised and every other character kept |
| OrderManagement.AsciiUpperHasNoLowercase | src/pages/OrderManagement.tsx:219 | An upper-cased key holds no lower-case ASCII letter |
| OrderManagement.AsciiUpperIdempotent | src/pages/OrderManagement.tsx:219 | Upper-casing an upper-cased key changes nothing |
| OrderManagement.StatusText | src/pages/OrderManagement.tsx:303 | The status, or PENDING when missing or empty; never empty |
| OrderManagement.StatusKey | src/pages/OrderManagement.tsx:219 | The looked-up key is the shown status with no lower-case letter left, of the same length; a missing or empty status looks up PENDING |
| OrderManagement.BadgeFor | src/pages/OrderManagement.tsx:219-220 | The table entry for the upper-cased status, or the PENDING style for an unknown key |
| OrderManagement.LowercaseEntriesUnreachable | src/pages/OrderManagement.tsx:213-216 | The lower-case entries of the style table are never looked up |
| OrderManagement.BadgeIgnoresCase | src/pages/OrderManagement.tsx:219 | The badge does not depend on letter case |
| OrderManagement.BadgeStyles | src/pages/OrderManagement.tsx:207-223 | Every badge has one of the four styles; a missing status has the PENDING style |
| OrderManagement.ApproveOfferedAsWritten | src/pages/OrderManagement.tsx:309 | An order offered approval as written wears the PENDING badge |
| OrderManagement.ApproveOffered | src/pages/OrderManagement.tsx:309 | An order offered approval wears the PENDING badge; the written rule implies it; a missing status, and a status that upper-cases to PENDING, are approvable |
| OrderManagement.LowercasePendingNotApprovable | src/pages/OrderManagement.tsx:309 | An order with status "pending" wears the PENDING badge but, as written, is not offered approval |
| OrderManagement.ApproveFollowsBadge | src/pages/OrderManagement.tsx:309 | Under the case-insensitive rule, approval is offered exactly when the status is missing or reads PENDING in any letter case; every approvable order wears the PENDING badge; the written rule is a special case |
| OrderManagement.LowercasePendingApprovable | src/pages/OrderManagement.tsx:309 | The status "pending", refused as written, is offered approval under the case-insensitive rule |
| OrderManagement.FirstTruthy | src/pages/OrderManagement.tsx:200-201 | The first truthy of two optional strings, else the fallback |
| OrderManagement.FirstAmount | src/pages/OrderManagement.tsx:202 | The first non-zero of two optional amounts, else 0 |
| OrderManagement.EditForm | src/pages/OrderManagement.tsx:197-205 | camelCase, then snake_case, then the defaults `''`, 0 and PENDING |
| OrderManagement.TableCells | src/pages/OrderManagement.tsx:298-299 | The same fallbacks, ending in 'N/A' |
| OrderManagement.FormMatchesTable | src/pages/OrderManagement.tsx:298-303 | The edit form opens with what the table shows, and its status gives the same badge |
| OrderManagement.OrderManagementPage.constructor | src/pages/OrderManagement.tsx:41-58 | No orders, loading, no filter, the empty form, page 0 of 0 |
| OrderManagement.OrderManagementPage.ApplyOrdersResponse | src/pages/OrderManagement.tsx:60-101 | Orders and page count follow the response normalisation; loading ends; the page is kept |
| OrderManagement.OrderManagementPage.SetStatusFilter | src/pages/OrderManagement.tsx:248-251 | The filter is set and the page returns to 0 |
| OrderManagement.OrderManagementPage.Navigate | src/pages/OrderManagement.tsx:363-375 | On a visible pager, "Previous" and "Next" keep the page within 0..totalPages-1 |
| OrderManagement.OrderManagementPage.OpenEditDialog | src/pages/OrderManagement.tsx:197-205 | Editing the order, with the form from the field fallbacks |
| PermissionManagement.AccessRedirect | src/pages/PermissionManagement.tsx:61-70 | No redirect iff the guard's `role:manage` check passes; otherwise the target is /admin/dashboard |
| PermissionManagement.CategoryColor | src/pages/PermissionManagement.tsx:204-212 | The four categories have fixed classes; any other category is gray |
| PermissionManagement.ColouredCategoriesAreGroupedOnes | src/pages/PermissionManagement.tsx:204-212 | The coloured categories are exactly those the role page groups by, and no two share a colour |
| PermissionManagement.EditForm | src/pages/PermissionManagement.tsx:195-202 | The form holds the permission's name, description and category |
| PermissionManagement.PermissionManagementPage.constructor | src/pages/PermissionManagement.tsx:73-83 | Empty list, loading, no filter, the empty form, page 0 of 0 with 0 elements |
| PermissionManagement.PermissionManagementPage.CurrentQuery | src/pages/PermissionManagement.tsx:88-92 | The page and size, with the category left out when the filter is empty |
| PermissionManagement.PermissionManagementPage.PagerVisible | src/pages/PermissionManagement.tsx:379 | The pager shows only once loading is over, and then exactly when the list is non-empty |
| PermissionManagement.PermissionManagementPage.RangeLabel | src/pages/PermissionManagement.tsx:382 | From page·size+1 to the smaller of the page end and the total; no end when the total is missing |
| PermissionManagement.PermissionManagementPage.ApplyPermissionsResponse | src/pages/PermissionManagement.tsx:85-110 | An array `content` replaces the list and totals; a non-array `content` is not a usable list but still sets the totals; anything else, or a failure, keeps them; loading ends; the page is kept; afterwards the pager shows exactly when the list is non-empty |
| PermissionManagement.PermissionManagementPage.ApplyCategories | src/pages/PermissionManagement.tsx:112-119 | The categories are replaced, or kept when the request fails |
| PermissionManagement.PermissionManagementPage.SetCategoryFilter | src/pages/PermissionManagement.tsx:294-296 | The filter is set and the page returns to 0; the next query carries the new filter; the list, its unusable flag and the totals are kept |
| PermissionManagement.PermissionManagementPage.OpenEditDialog | src/pages/PermissionManagement.tsx:195-202 | Editing the permission, with its fields in the form; the list and its unusable flag are kept |
| PermissionManagement.PermissionManagementPage.OnSaved | src/pages/PermissionManagement.tsx:157-158 | The dialog closes and the form is reset; the list and its unusable flag are kept |
| ProfilePage.ValidateAvatar | src/pages/ProfilePage.tsx:72-89 | Over 5 MiB is too large, checked first; otherwise a type not starting with `image/` is refused; otherwise accepted |
| ProfilePage.AcceptedHereAcceptedByAdmin | src/pages/ProfilePage.tsx:72 | A file this page accepts is also within the user page's 10 MiB limit |
| ProfilePage.NewAvatarUrl | src/pages/ProfilePage.tsx:107 | The reply's `avatarUrl` when truthy, else its `fileName` |
| ProfilePage.AfterUpload | src/pages/ProfilePage.tsx:108-115 | With a truthy URL, the same profile with that avatar; otherwise no change |
| ProfilePage.Resync | src/pages/ProfilePage.tsx:133-144 | A server avatar that is set and differs from the new URL is kept as it is; otherwise the server profile takes the new URL; no reply changes nothing |
| ProfilePage.ResyncPrefersServerAvatar | src/pages/ProfilePage.tsx:133-144 | The result is the server's profile in every field but the avatar, which is the server's when set and otherwise the new URL |
| ProfilePage.ResyncKeepsUploadedAvatar | src/pages/ProfilePage.tsx:107-144 | While the server has not caught up, the re-sync keeps the avatar the upload set |
| ProfilePage.DeleteAvatar | src/pages/ProfilePage.tsx:168-171 | The same profile with no avatar |
| ProfilePage.UploadAfterDeleteRestores | src/pages/ProfilePage.tsx:108-171 | An upload after a deletion gives the profile with the new avatar |
| ProfilePage.IndexFrom | src/pages/ProfilePage.tsx:432 | The first occurrence of the pattern at or after the start, or none |
| ProfilePage.ReplaceFirst | src/pages/ProfilePage.tsx:432 | Without an occurrence, the string is unchanged; otherwise only the first occurrence is replaced |
| ProfilePage.LeadingPrefixStripped | src/pages/ProfilePage.tsx:432 | A leading `ROLE_` is stripped, and only that one |
| ProfilePage.PrefixedRoleShowsName | src/pages/ProfilePage.tsx:432 | A role written as `ROLE_` followed by a name shows as that name |
| ProfilePage.KnownRolesShowBareNames | src/pages/ProfilePage.tsx:432 | Every role of the catalog shows without its `ROLE_` prefix, as ADMIN, MANAGER, STAFF or USER |
| ProfilePage.UnprefixedRoleUnchanged | src/pages/ProfilePage.tsx:437 | A role without the prefix is shown unchanged |
| ProfilePage.RoleBadgeTexts | src/pages/ProfilePage.tsx:428-441 | One badge per listed role; one badge for a role string; "no role" when the field is missing or empty |
| ProfilePage.ScalarRoleLikeSingleton | src/pages/ProfilePage.tsx:436-438 | A role string is shown like the one-element list holding it |
| ProfilePage.DisplayProfile | src/pages/ProfilePage.tsx:241 | The page's own profile, else the store's |
| ProfilePage.DisplayUsername | src/pages/ProfilePage.tsx:242 | The shown profile's username, else "Người dùng"; never empty |
| ProfilePage.ProfilePageState.constructor | src/pages/ProfilePage.tsx:20-32 | No profile, loading, no file |
| ProfilePage.ProfilePageState.Username | src/pages/ProfilePage.tsx:241-242 | The username line for the current state |
| ProfilePage.ProfilePageState.OnProfileLoaded | src/pages/ProfilePage.tsx:36-54 | A fetched profile is kept and written to the store; a failure changes nothing; loading ends |
| ProfilePage.ProfilePageState.SelectAvatar | src/pages/ProfilePage.tsx:67-91 | The verdict is the validation's; only an accepted file is kept |
| ProfilePage.ProfilePageState.Upload | src/pages/ProfilePage.tsx:99-126 | Without a file or a profile, or on failure, nothing changes. Otherwise the profile takes the new URL, written to the store when present, and the file is cleared |
| ProfilePage.ProfilePageState.OnResync | src/pages/ProfilePage.tsx:128-144 | The re-synchronised profile is kept and written to the store; a failure changes nothing |
| ProfilePage.ProfilePageState.OnProfileReloaded | src/pages/ProfilePage.tsx:182-190 | The delayed reload after an avatar deletion, also used for the reload after a profile update: a fetched profile replaces the page's and the store's, a failure changes nothing, loading is untouched |
| ProfilePage.ProfilePageState.OnAvatarDeleted | src/pages/ProfilePage.tsx:161-173 | The profile loses its avatar and is written to the store; without a profile, nothing changes; the delayed reload that follows is `OnProfileReloaded` |

## Left out

- The axios interceptor (src/api/axiosInstance.ts) and its token refresh are not part of this model. They are network code.
- The service files are one-line HTTP wrappers. Request outcomes enter the model as parameters: a response body, or None for a failed request. The one exception is the storage wipe of `authService.logout`, which is modelled as `AuthStore.Store.ClearStorage`.
- `authService.logout` also performs a hard navigation. It is the `LOGIN_PATH` returned by `OnAuthenticationChange`.
- The profile's JSON text is not modelled. The store is given an `encode`/`decode` pair. Three facts are assumed: every profile encodes to non-empty text; that text decodes back to the same profile; and a truthy `userProfile` value in storage decodes. The third holds because only the store writes that key; other code only clears storage or sets `accessToken`. For any other stored text, `JSON.parse` at src/stores/authStore.ts:69 would throw, which the model does not capture.
- JSX, toasts, dialogs' open flags, loading spinners, `setTimeout` delays and React's effect scheduling are left out, except the order of the wrapper's first render and its mount effect on a page load, which `App.LoadPageAsWritten` fixes by hand. Navigation targets are returned values. The delayed re-syncs are methods called with the reply.
- Each page's delete handler, create/update request and list refetch is left out; they are network calls. What they send is modelled by `CreatePayload`/`UpdatePayload`, and what comes back by the `Apply…Response` methods. The user page's avatar upload and delete for other users are left out for the same reason.
- The profile page's form fields (`handleInputChange`, the payload of `handleUpdateProfile`) and the avatar preview (`FileReader`) are not modelled. Only the profile reload after an update (src/pages/ProfilePage.tsx:218-220) is modelled, by the same `OnProfileReloaded` as the delayed reload after an avatar deletion.
- The `userName`/`userEmail` aliases of the username and email are not modelled.
- Amounts are integers, with 0 as the falsy amount. Floating point, `parseFloat` and `toLocaleString` are left out.
- The order page's approve button also sits inside the guard's `order:approve` check; that check is `PermissionGuard.HasAccess`.
- `OrderManagement.AsciiUpper`: upper-casing is modelled for ASCII letters only, not for Unicode case mapping.
- `RoleManagement.GroupByCategory`: a permission whose category names a member every plain object inherits (such as `constructor`) would make the source throw. The model drops it like any other unknown category.
- `PermissionManagement.CategoryColor`: for such an inherited name the source yields that member rather than the gray default. The model returns the gray default.
- `Permissions.GetRoleLabel`: for such an inherited name the source yields that member rather than the name. The model returns the name.
- `Permissions.HasMinimumRole`: for such an inherited name `roleHierarchy[role]` is a function, and comparing it with `>=` against the rank of one of the four roles (every caller's minimum role) is false. The model treats the name as unknown, which gives the same false. When both the role and the minimum role are inherited names, JavaScript compares the functions' source texts and can answer true where the model answers false; the parameter is typed `Role` and no caller passes such a minimum role.
- `ProfilePage.RoleBadgeText` carries no contract of its own. `LeadingPrefixStripped`, `PrefixedRoleShowsName`, `KnownRolesShowBareNames` and `UnprefixedRoleUnchanged` state what it shows.
- Route matching is modelled only for paths written exactly as declared, in `App.RouteFor`. React Router's ranking, trailing slashes and nested route matching are left out.
- The protected route's dashboard, user and settings pages are not modelled. They only render data.

## Findings

| source | as written | input that shows it | evidently intended | confidence | as-written member | corrected member |
|---|---|---|---|---|---|---|
| src/lib/permissions.ts:41 | `rolePermissions[role]?.includes(permission)` also finds members that every object inherits; their `includes` is undefined, so the call throws | a profile without a permission list whose role is `constructor`, under a guard requiring `user:read` | an unknown role name grants nothing, and the check returns false | medium, not executed | Permissions.HasPermissionAsWritten, Permissions.InheritedRoleNameThrows | Permissions.HasPermission, Permissions.UnknownRolesGrantNothing |
| src/pages/UserManagement.tsx:336 | the panel test reads `formData.roles[0]`; the edit dialog copies a role that arrived as a string unchanged, so this reads its first character | an administrator edits a user whose `roles` is the string "ROLE_ADMIN": the test reads "R", and the extra-permission panel is shown | the panel is hidden for ROLE_ADMIN and ROLE_USER, whatever shape the role arrived in | medium, not executed | UserManagement.PanelShownAsWritten, UserManagement.ScalarAdminRoleShowsPanel | UserManagement.PanelShown, UserManagement.PanelFollowsEditedRole |
| src/pages/OrderManagement.tsx:309 | the approve test compares the status with 'PENDING' case-sensitively, while the badge upper-cases it | an order with status "pending" wears the PENDING badge but is not offered approval | approval is offered for every order whose status reads PENDING in any letter case | low, not executed | OrderManagement.ApproveOfferedAsWritten, OrderManagement.LowercasePendingNotApprovable | OrderManagement.ApproveOffered, OrderManagement.ApproveFollowsBadge, OrderManagement.LowercasePendingApprovable |
| src/App.tsx:50 | the wrapper decides on its first render, with the store still in its initial signed-out state; `Navigate`'s effect, a child's, runs before the wrapper's mount effect hydrates the session | a reload of /admin/users with both tokens stored and an administrator's profile: the first render redirects to /login | a reload of a signed-in session shows the admin layout | medium, not executed | App.LoadPageAsWritten, App.ReloadOfSignedInSessionLandsOnLogin | App.LoadPage, App.ScreenAfterLoad |
