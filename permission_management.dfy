/**
 * The permission catalog page: its access check, the category colours, the edit form and the
 * page state with its category filter.
 */
module PermissionManagement {
  import opened Wrappers
  import opened Profile
  import opened Responses
  import Paging
  import PermissionGuard
  import RoleManagement

  const PAGE_SIZE: nat := 10

  /** Where a user without `role:manage` is sent; the check is the role page's. */
  function AccessRedirect(userProfile: Option<UserProfile>): (target: Option<string>)
    ensures target.None? <==> PermissionGuard.HasAccess(userProfile, Some(RoleManagement.MANAGE_ROLES), None)
    ensures target.Some? ==> target.value == RoleManagement.DASHBOARD_PATH
  {
    RoleManagement.AccessIsGuardCheck(userProfile, None);
    RoleManagement.AccessRedirect(userProfile)
  }

  const DefaultColor: string := "bg-gray-100 text-gray-700 border-gray-300"

  /** The badge classes of a category; an unknown category is gray. */
  function CategoryColor(category: string): (classes: string)
    ensures category == "User Management" ==> classes == "bg-blue-100 text-blue-700 border-blue-300"
    ensures category == "Report Management" ==> classes == "bg-green-100 text-green-700 border-green-300"
    ensures category == "Order Management" ==> classes == "bg-purple-100 text-purple-700 border-purple-300"
    ensures category == "System Management" ==> classes == "bg-red-100 text-red-700 border-red-300"
    ensures category !in RoleManagement.Categories ==> classes == DefaultColor
  {
    var colors := map[
      "User Management" := "bg-blue-100 text-blue-700 border-blue-300",
      "Report Management" := "bg-green-100 text-green-700 border-green-300",
      "Order Management" := "bg-purple-100 text-purple-700 border-purple-300",
      "System Management" := "bg-red-100 text-red-700 border-red-300"
    ];
    if category in colors then colors[category] else DefaultColor
  }

  /**
   * The coloured categories are exactly the ones the role page groups by, and no two of them
   * share a colour.
   */
  lemma ColouredCategoriesAreGroupedOnes(a: string, b: string)
    ensures CategoryColor(a) != DefaultColor <==> a in RoleManagement.Categories
    ensures a in RoleManagement.Categories && b in RoleManagement.Categories && a != b ==> CategoryColor(a) != CategoryColor(b)
  {
  }

  /** The permission form. */
  datatype PermissionForm = PermissionForm(name: string, description: string, category: string)

  const EmptyForm: PermissionForm := PermissionForm("", "", "")

  function EditForm(permission: RoleManagement.Permission): (form: PermissionForm)
    ensures form.name == permission.name && form.description == permission.description
    ensures form.category == permission.category
  {
    PermissionForm(permission.name, permission.description, permission.category)
  }

  /** The list query: an empty category filter is left out. */
  datatype Query = Query(page: int, size: nat, category: Option<string>)

  class PermissionManagementPage {
    var permissions: seq<RoleManagement.Permission>
    var permissionsUnusable: bool
    var categories: seq<string>
    var loading: bool
    var categoryFilter: string
    var form: PermissionForm
    var editing: Option<RoleManagement.Permission>
    const pager: Paging.Pager

    ghost predicate Valid()
      reads this, pager
    {
      pager.Valid() && pager.pageSize == PAGE_SIZE && !pager.clampsNext
    }

    constructor()
      ensures Valid() && fresh(pager)
      ensures permissions == [] && !permissionsUnusable && categories == [] && loading && categoryFilter == ""
      ensures form == EmptyForm && editing.None?
      ensures pager.page == 0 && pager.totalPages == Some(0) && pager.totalElements == Some(0)
    {
      permissions, permissionsUnusable, categories, loading, categoryFilter := [], false, [], true, "";
      form, editing := EmptyForm, None;
      pager := new Paging.Pager(PAGE_SIZE, false);
    }

    /** The query the next fetch sends. */
    function CurrentQuery(): (q: Query)
      reads this, pager
      ensures q.page == pager.page && q.size == PAGE_SIZE
      ensures q.category.None? <==> categoryFilter == ""
      ensures q.category.Some? ==> q.category.value == categoryFilter
    {
      Query(pager.page, PAGE_SIZE, if categoryFilter == "" then None else Some(categoryFilter))
    }

    /** The pager is shown once loading is over and the list is not empty. */
    function PagerVisible(): (visible: bool)
      reads this
      ensures visible ==> !loading
      ensures !loading ==> (visible <==> permissions != [])
    {
      !loading && |permissions| > 0
    }

    /** The "rows a to b of n" line under the table. */
    function RangeLabel(): (r: Paging.Range)
      reads this, pager
      ensures r.first == pager.page * PAGE_SIZE + 1
      ensures r.last.Some? <==> pager.totalElements.Some?
      ensures r.last.Some? ==> r.last.value <= pager.totalElements.value && r.last.value <= (pager.page + 1) * PAGE_SIZE
      ensures r.last.Some? ==> r.last.value == pager.totalElements.value || r.last.value == (pager.page + 1) * PAGE_SIZE
    {
      Paging.ShownRange(pager.page, PAGE_SIZE, pager.totalElements)
    }

    /** A permission-list response, or None when the request failed; loading ends either way. */
    method ApplyPermissionsResponse(response: Option<Body<RoleManagement.Permission>>)
      requires Valid()
      modifies this, pager
      ensures Valid() && !loading && pager.page == old(pager.page)
      ensures response.Some? && ContentOnly(response.value).Loaded? ==>
                var r := ContentOnly(response.value);
                permissions == r.items && !permissionsUnusable
                && pager.totalPages == r.totalPages && pager.totalElements == r.totalElements
      ensures response.Some? && ContentOnly(response.value).Unusable? ==>
                permissionsUnusable && pager.totalPages == response.value.totalPages && pager.totalElements == response.value.totalItems
      ensures response.None? || ContentOnly(response.value).Unchanged? ==>
                permissions == old(permissions) && permissionsUnusable == old(permissionsUnusable)
                && pager.totalPages == old(pager.totalPages) && pager.totalElements == old(pager.totalElements)
      ensures categories == old(categories) && categoryFilter == old(categoryFilter)
      ensures form == old(form) && editing == old(editing)
      ensures PagerVisible() <==> permissions != []
    {
      if response.Some? {
        match ContentOnly(response.value)
        case Loaded(items, totalPages, totalElements) =>
          permissions, permissionsUnusable := items, false;
          pager.SetTotals(totalPages, totalElements);
        case Unusable =>
          permissionsUnusable := true;
          pager.SetTotals(response.value.totalPages, response.value.totalItems);
        case Unchanged =>
      }
      loading := false;
    }

    /** The category list, or None when the request failed and the list is kept. */
    method ApplyCategories(response: Option<seq<string>>)
      requires Valid()
      modifies this
      ensures Valid()
      ensures categories == (if response.Some? then response.value else old(categories))
      ensures permissions == old(permissions) && loading == old(loading) && categoryFilter == old(categoryFilter)
      ensures form == old(form) && editing == old(editing) && permissionsUnusable == old(permissionsUnusable)
    {
      if response.Some? {
        categories := response.value;
      }
    }

    /** The category filter changes: back to the first page, the query carries the new filter. */
    method SetCategoryFilter(category: string)
      requires Valid()
      modifies this, pager
      ensures Valid() && categoryFilter == category && pager.page == 0
      ensures CurrentQuery().page == 0 && CurrentQuery().category == (if category == "" then None else Some(category))
      ensures pager.totalPages == old(pager.totalPages) && pager.totalElements == old(pager.totalElements)
      ensures permissions == old(permissions) && permissionsUnusable == old(permissionsUnusable)
      ensures categories == old(categories) && loading == old(loading)
      ensures form == old(form) && editing == old(editing)
    {
      categoryFilter := category;
      pager.Reset();
    }

    method OpenEditDialog(permission: RoleManagement.Permission)
      requires Valid()
      modifies this
      ensures Valid() && editing == Some(permission) && form == EditForm(permission)
      ensures permissions == old(permissions) && permissionsUnusable == old(permissionsUnusable)
      ensures categories == old(categories) && loading == old(loading) && categoryFilter == old(categoryFilter)
    {
      editing := Some(permission);
      form := EditForm(permission);
    }

    /** A saved create or update: the dialog closes and the form is reset. */
    method OnSaved()
      requires Valid()
      modifies this
      ensures Valid() && form == EmptyForm && editing.None?
      ensures permissions == old(permissions) && permissionsUnusable == old(permissionsUnusable)
      ensures categories == old(categories) && loading == old(loading) && categoryFilter == old(categoryFilter)
    {
      form, editing := EmptyForm, None;
    }
  }
}
