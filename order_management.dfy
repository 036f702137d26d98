/**
 * The order administration page: the normalisation of the four response shapes, the status
 * badge, the approve rule, the edit form's field fallbacks and the page state.
 */
module OrderManagement {
  import opened Wrappers
  import opened Responses
  import Paging

  const PAGE_SIZE: nat := 10
  const PENDING: string := "PENDING"

  /**
   * An order row. The server may name fields in camelCase or in snake_case; any of them may
   * be missing. Amounts are kept as integers, 0 being the falsy amount.
   */
  datatype Order = Order(
    id: int,
    orderNumber: Option<string>,
    order_number: Option<string>,
    customerName: Option<string>,
    customer_name: Option<string>,
    totalAmount: Option<int>,
    amount: Option<int>,
    status: Option<string>
  )

  /** The orders and the page count a response leaves on the page. */
  datatype OrderList = OrderList(orders: seq<Order>, totalPages: int)

  /** `n || fallback` for an optional count: a missing count and 0 are falsy. */
  function CountOr(n: Option<int>, fallback: int): (r: int)
    ensures n.Some? && n.value != 0 ==> r == n.value
    ensures n.None? || n.value == 0 ==> r == fallback
  {
    if n.Some? && n.value != 0 then n.value else fallback
  }

  /** The items of a truthy list field, or [] when it is truthy but not an array. */
  function ItemsOr<T>(field: Field<T>): (items: seq<T>)
    ensures field.Items? ==> items == field.items
    ensures !field.Items? ==> items == []
  {
    if field.Items? then field.items else []
  }

  /**
   * The four branches of the order fetch, tried in order: a truthy `content` with
   * `totalPages || 0`; a truthy `orders` with `totalPages || 1`; a bare array as one page;
   * anything else as no orders and no pages. A failed request (None) also empties the list.
   */
  function OrdersFromResponse(response: Option<Body<Order>>): (r: OrderList)
    ensures response.None? ==> r == OrderList([], 0)
    ensures response.Some? && response.value.ArrayBody? ==> r == OrderList(response.value.items, 1)
    ensures response.Some? && response.value.ObjectBody? ==>
              var b := response.value;
              (!b.content.Falsy? ==> r == OrderList(ItemsOr(b.content), CountOr(b.totalPages, 0)))
              && (b.content.Falsy? && !b.orders.Falsy? ==> r == OrderList(ItemsOr(b.orders), CountOr(b.totalPages, 1)))
              && (b.content.Falsy? && b.orders.Falsy? ==> r == OrderList([], 0))
  {
    if response.None? then OrderList([], 0)
    else match response.value
      case ArrayBody(items) => OrderList(items, 1)
      case ObjectBody(content, orders, totalPages, _, _) =>
        if !content.Falsy? then OrderList(ItemsOr(content), CountOr(totalPages, 0))
        else if !orders.Falsy? then OrderList(ItemsOr(orders), CountOr(totalPages, 1))
        else OrderList([], 0)
  }

  /** The pager is shown only for more than one page. */
  function PagerVisible(totalPages: int): (visible: bool)
    ensures visible <==> !Paging.NextDisabled(0, Some(totalPages))
  {
    totalPages > 1
  }

  /**
   * Only a paged object reporting more than one page shows the pager; a bare array, an
   * unexpected shape and a failed request never do.
   */
  lemma OnlyPagedResponsesShowPager(response: Option<Body<Order>>)
    ensures PagerVisible(OrdersFromResponse(response).totalPages) ==>
              response.Some? && response.value.ObjectBody? && response.value.totalPages.Some?
              && response.value.totalPages.value > 1
              && !(response.value.content.Falsy? && response.value.orders.Falsy?)
  {
  }

  /** Every order a response delivers comes from the list field the response carries. */
  lemma OrdersComeFromTheResponse(response: Option<Body<Order>>, o: Order)
    requires o in OrdersFromResponse(response).orders
    ensures response.Some?
    ensures response.value.ArrayBody? ==> o in response.value.items
    ensures response.value.ObjectBody? ==>
              (response.value.content.Items? && o in response.value.content.items)
              || (response.value.orders.Items? && o in response.value.orders.items)
  {
  }

  // ---------------------------------------------------------------------------------------
  // The status badge and the approve rule
  // ---------------------------------------------------------------------------------------

  /** Upper-casing of the ASCII letters; every other character is kept. */
  function AsciiUpper(s: string): (u: string)
    ensures |u| == |s|
    ensures forall i :: 0 <= i < |s| ==> u[i] == (if 'a' <= s[i] <= 'z' then (s[i] as int - 32) as char else s[i])
  {
    if s == [] then []
    else [if 'a' <= s[0] <= 'z' then (s[0] as int - 32) as char else s[0]] + AsciiUpper(s[1..])
  }

  /** An upper-cased string holds no lower-case ASCII letter. */
  lemma AsciiUpperHasNoLowercase(s: string)
    ensures forall i :: 0 <= i < |AsciiUpper(s)| ==> !('a' <= AsciiUpper(s)[i] <= 'z')
  {
  }

  /** Upper-casing twice is upper-casing once. */
  lemma AsciiUpperIdempotent(s: string)
    ensures AsciiUpper(AsciiUpper(s)) == AsciiUpper(s)
  {
  }

  /** A badge's look. */
  datatype BadgeStyle = BadgeStyle(variant: string, className: string)

  const PendingStyle: BadgeStyle := BadgeStyle("secondary", "bg-yellow-100 text-yellow-800")
  const ApprovedStyle: BadgeStyle := BadgeStyle("default", "bg-green-100 text-green-800")
  const RejectedStyle: BadgeStyle := BadgeStyle("destructive", "bg-red-100 text-red-800")
  const CompletedStyle: BadgeStyle := BadgeStyle("default", "bg-blue-100 text-blue-800")

  /** The style table, with both upper- and lower-case keys. */
  const StatusStyles: map<string, BadgeStyle> := map[
    "PENDING" := PendingStyle, "APPROVED" := ApprovedStyle, "REJECTED" := RejectedStyle, "COMPLETED" := CompletedStyle,
    "pending" := PendingStyle, "approved" := ApprovedStyle, "rejected" := RejectedStyle, "completed" := CompletedStyle
  ]

  /** The status a row shows: `status || 'PENDING'`. */
  function StatusText(status: Option<string>): (text: string)
    ensures text != ""
    ensures Truthy(status) ==> text == status.value
  {
    OrElse(status, PENDING)
  }

  /** The key looked up in the style table: the shown status, upper-cased. */
  function StatusKey(status: Option<string>): (key: string)
    ensures |key| == |StatusText(status)|
    ensures key != "" && forall i :: 0 <= i < |key| ==> !('a' <= key[i] <= 'z')
    ensures !Truthy(status) ==> key == PENDING
  {
    AsciiUpperHasNoLowercase(StatusText(status));
    if !Truthy(status) then
      assert AsciiUpper(PENDING) == PENDING;
      AsciiUpper(StatusText(status))
    else
      AsciiUpper(StatusText(status))
  }

  /** The badge's style: the table entry for the key, the PENDING style for an unknown key. */
  function BadgeFor(status: Option<string>): (style: BadgeStyle)
    ensures StatusKey(status) in StatusStyles ==> style == StatusStyles[StatusKey(status)]
    ensures StatusKey(status) !in StatusStyles ==> style == PendingStyle
  {
    var key := StatusKey(status);
    if key in StatusStyles then StatusStyles[key] else PendingStyle
  }

  /** The lower-case entries of the style table are never looked up. */
  lemma LowercaseEntriesUnreachable(status: Option<string>)
    ensures StatusKey(status) !in {"pending", "approved", "rejected", "completed"}
  {
    var key := StatusKey(status);
    AsciiUpperHasNoLowercase(StatusText(status));
    if |key| > 0 {
      assert !('a' <= key[0] <= 'z');
    }
  }

  /** The badge does not depend on letter case. */
  lemma BadgeIgnoresCase(s: string)
    requires s != ""
    ensures BadgeFor(Some(s)) == BadgeFor(Some(AsciiUpper(s)))
  {
    AsciiUpperIdempotent(s);
  }

  /** Whatever the status, the badge has one of the four styles; a missing status is PENDING. */
  lemma BadgeStyles(status: Option<string>)
    ensures BadgeFor(status) in {PendingStyle, ApprovedStyle, RejectedStyle, CompletedStyle}
    ensures !Truthy(status) ==> BadgeFor(status) == PendingStyle
  {
    assert AsciiUpper(PENDING) == PENDING;
  }

  /** The approve action as written: `(order.status || 'PENDING') === 'PENDING'`, case-sensitive. */
  function ApproveOfferedAsWritten(order: Order): (offered: bool)
    ensures offered ==> BadgeFor(order.status) == PendingStyle
  {
    assert AsciiUpper(PENDING) == PENDING;
    StatusText(order.status) == PENDING
  }

  /**
   * An order whose status arrives as "pending" wears the PENDING badge but is not offered
   * the approve action.
   */
  lemma LowercasePendingNotApprovable()
    ensures var order := Order(7, None, None, None, None, None, None, Some("pending"));
      BadgeFor(order.status) == PendingStyle && !ApproveOfferedAsWritten(order)
  {
    assert AsciiUpper("pending") == PENDING;
  }

  /** The approve action, case-insensitive like the badge. */
  function ApproveOffered(order: Order): (offered: bool)
    ensures offered ==> BadgeFor(order.status) == PendingStyle
    ensures ApproveOfferedAsWritten(order) ==> offered
    ensures !Truthy(order.status) ==> offered
    ensures Truthy(order.status) && StatusKey(order.status) == PENDING ==> offered
  {
    assert AsciiUpper(PENDING) == PENDING;
    StatusKey(order.status) == PENDING
  }

  /**
   * The approve action is offered exactly when the status is missing or reads PENDING in any
   * letter case, so every approvable order wears the PENDING badge, and the written rule is a
   * special case. (The converse of the badge clause does not hold: an unknown status also
   * falls back to the PENDING badge.)
   */
  lemma ApproveFollowsBadge(order: Order)
    ensures ApproveOffered(order) <==> !Truthy(order.status) || AsciiUpper(order.status.value) == PENDING
    ensures ApproveOffered(order) ==> BadgeFor(order.status) == PendingStyle
    ensures ApproveOfferedAsWritten(order) ==> ApproveOffered(order)
  {
    assert AsciiUpper(PENDING) == PENDING;
  }

  /** The corrected rule offers the approve action for the status "pending" that the rule as written refuses. */
  lemma LowercasePendingApprovable()
    ensures var order := Order(7, None, None, None, None, None, None, Some("pending"));
      ApproveOffered(order) && !ApproveOfferedAsWritten(order)
  {
    assert AsciiUpper("pending") == PENDING;
  }

  // ---------------------------------------------------------------------------------------
  // The edit form
  // ---------------------------------------------------------------------------------------

  /** The order form. */
  datatype OrderForm = OrderForm(orderNumber: string, customerName: string, totalAmount: int, status: string)

  const EmptyForm: OrderForm := OrderForm("", "", 0, PENDING)

  /** `a || b || fallback` for two optional strings. */
  function FirstTruthy(a: Option<string>, b: Option<string>, fallback: string): (r: string)
    ensures Truthy(a) ==> r == a.value
    ensures !Truthy(a) && Truthy(b) ==> r == b.value
    ensures !Truthy(a) && !Truthy(b) ==> r == fallback
  {
    OrElse(a, OrElse(b, fallback))
  }

  /** `a || b || 0` for two optional amounts. */
  function FirstAmount(a: Option<int>, b: Option<int>): (r: int)
    ensures a.Some? && a.value != 0 ==> r == a.value
    ensures (a.None? || a.value == 0) && b.Some? && b.value != 0 ==> r == b.value
    ensures (a.None? || a.value == 0) && (b.None? || b.value == 0) ==> r == 0
  {
    CountOr(a, CountOr(b, 0))
  }

  /** The edit dialog's form: camelCase, then snake_case, then the defaults. */
  function EditForm(order: Order): (form: OrderForm)
    ensures form.orderNumber == FirstTruthy(order.orderNumber, order.order_number, "")
    ensures form.customerName == FirstTruthy(order.customerName, order.customer_name, "")
    ensures form.totalAmount == FirstAmount(order.totalAmount, order.amount)
    ensures form.status == StatusText(order.status)
  {
    OrderForm(FirstTruthy(order.orderNumber, order.order_number, ""),
              FirstTruthy(order.customerName, order.customer_name, ""),
              FirstAmount(order.totalAmount, order.amount),
              StatusText(order.status))
  }

  /** The order-number and customer cells of the table: the same fallbacks, ending in 'N/A'. */
  function TableCells(order: Order): (cells: (string, string))
    ensures cells.0 == FirstTruthy(order.orderNumber, order.order_number, "N/A")
    ensures cells.1 == FirstTruthy(order.customerName, order.customer_name, "N/A")
  {
    (FirstTruthy(order.orderNumber, order.order_number, "N/A"), FirstTruthy(order.customerName, order.customer_name, "N/A"))
  }

  /**
   * The edit form opens with what the table shows: the same field wins, and an empty form
   * field is a cell reading 'N/A'; the form's status is the badge's text.
   */
  lemma FormMatchesTable(order: Order)
    ensures EditForm(order).orderNumber != "" ==> EditForm(order).orderNumber == TableCells(order).0
    ensures EditForm(order).orderNumber == "" ==> TableCells(order).0 == "N/A"
    ensures EditForm(order).customerName != "" ==> EditForm(order).customerName == TableCells(order).1
    ensures EditForm(order).customerName == "" ==> TableCells(order).1 == "N/A"
    ensures BadgeFor(Some(EditForm(order).status)) == BadgeFor(order.status)
  {
  }

  // ---------------------------------------------------------------------------------------
  // The page state
  // ---------------------------------------------------------------------------------------

  class OrderManagementPage {
    var orders: seq<Order>
    var loading: bool
    var statusFilter: string
    var form: OrderForm
    var editing: Option<Order>
    const pager: Paging.Pager

    ghost predicate Valid()
      reads this, pager
    {
      pager.Valid() && pager.pageSize == PAGE_SIZE && pager.clampsNext && pager.totalPages.Some?
    }

    constructor()
      ensures Valid() && fresh(pager)
      ensures orders == [] && loading && statusFilter == "" && form == EmptyForm && editing.None?
      ensures pager.page == 0 && pager.totalPages == Some(0)
    {
      orders, loading, statusFilter, form, editing := [], true, "", EmptyForm, None;
      pager := new Paging.Pager(PAGE_SIZE, true);
    }

    /** A response, or None when the request failed; loading ends either way. */
    method ApplyOrdersResponse(response: Option<Body<Order>>)
      requires Valid()
      modifies this, pager
      ensures Valid() && !loading && pager.page == old(pager.page)
      ensures orders == OrdersFromResponse(response).orders
      ensures pager.totalPages == Some(OrdersFromResponse(response).totalPages)
      ensures statusFilter == old(statusFilter) && form == old(form) && editing == old(editing)
    {
      var list := OrdersFromResponse(response);
      orders := list.orders;
      pager.SetTotals(Some(list.totalPages), pager.totalElements);
      loading := false;
    }

    /** The status filter changes: back to the first page. */
    method SetStatusFilter(status: string)
      requires Valid()
      modifies this, pager
      ensures Valid() && statusFilter == status && pager.page == 0
      ensures pager.totalPages == old(pager.totalPages)
      ensures orders == old(orders) && form == old(form) && editing == old(editing) && loading == old(loading)
    {
      statusFilter := status;
      pager.Reset();
    }

    /**
     * "Previous" or "Next" on a visible pager, from a page inside the list: the new page
     * is still inside it.
     */
    method Navigate(forward: bool)
      requires Valid() && PagerVisible(pager.totalPages.value) && pager.page <= pager.totalPages.value - 1
      modifies pager
      ensures Valid() && 0 <= pager.page <= pager.totalPages.value - 1
      ensures forward ==> pager.page == (if old(pager.page) == pager.totalPages.value - 1 then old(pager.page) else old(pager.page) + 1)
      ensures !forward ==> pager.page == Paging.PreviousPage(old(pager.page))
      ensures pager.totalPages == old(pager.totalPages)
    {
      if forward {
        pager.Next();
      } else {
        pager.Previous();
      }
    }

    method OpenEditDialog(order: Order)
      requires Valid()
      modifies this
      ensures Valid() && editing == Some(order) && form == EditForm(order)
      ensures orders == old(orders) && statusFilter == old(statusFilter) && loading == old(loading)
    {
      editing := Some(order);
      form := EditForm(order);
    }
  }
}
