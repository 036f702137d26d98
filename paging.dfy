/**
 * The pagination arithmetic shared by the four list pages: the page index is 0-based, the
 * label shows it 1-based, and "Previous"/"Next" move it by one.
 */
module Paging {
  import opened Wrappers

  /** "Previous": `Math.max(0, page - 1)`. */
  function PreviousPage(page: int): (p: int)
    ensures p >= 0
    ensures page >= 1 ==> p == page - 1
    ensures page <= 1 ==> p == 0
  {
    if page - 1 > 0 then page - 1 else 0
  }

  /** "Previous" is disabled on the first page. */
  function PreviousDisabled(page: int): (disabled: bool)
    ensures page >= 0 ==> (disabled <==> PreviousPage(page) == page)
  {
    page == 0
  }

  /**
   * "Next" is disabled from the last page on: `page >= totalPages - 1`. A missing total
   * (None) compares false, so "Next" then stays enabled.
   */
  function NextDisabled(page: int, totalPages: Option<int>): (disabled: bool)
    ensures totalPages.None? ==> !disabled
    ensures totalPages.Some? ==> (disabled <==> ClampedNextPage(page, totalPages.value) <= page)
  {
    totalPages.Some? && page >= totalPages.value - 1
  }

  /** "Next" on the order list: `Math.min(totalPages - 1, page + 1)`. */
  function ClampedNextPage(page: int, totalPages: int): (p: int)
    ensures p <= totalPages - 1 && p <= page + 1
    ensures p == page + 1 || p == totalPages - 1
  {
    if totalPages - 1 < page + 1 then totalPages - 1 else page + 1
  }

  /** The page count in the label: `totalPages || 1`. */
  function ShownTotalPages(totalPages: Option<int>): (n: int)
    ensures totalPages.Some? && totalPages.value != 0 ==> n == totalPages.value
    ensures totalPages.None? || totalPages.value == 0 ==> n == 1
  {
    if totalPages.Some? && totalPages.value != 0 then totalPages.value else 1
  }

  /**
   * The 1-based positions of the first and the last row of a page; the last is None (shown
   * as NaN) when the total is missing.
   */
  datatype Range = Range(first: int, last: Option<int>)

  /** `page * pageSize + 1` to `Math.min((page + 1) * pageSize, totalElements)`. */
  function ShownRange(page: int, pageSize: int, totalElements: Option<int>): (r: Range)
    ensures r.first == page * pageSize + 1
    ensures totalElements.None? <==> r.last.None?
    ensures r.last.Some? ==> r.last.value <= totalElements.value && r.last.value <= (page + 1) * pageSize
    ensures r.last.Some? ==> r.last.value == totalElements.value || r.last.value == (page + 1) * pageSize
  {
    var end := (page + 1) * pageSize;
    Range(page * pageSize + 1,
          if totalElements.None? then None else Some(if end < totalElements.value then end else totalElements.value))
  }

  /**
   * On a page that starts inside the list, the range is non-empty, lies within 1..total and
   * covers at most one page of rows.
   */
  lemma ShownRangeWithinTotals(page: int, pageSize: int, totalElements: int)
    requires pageSize > 0 && page >= 0 && page * pageSize < totalElements
    ensures var r := ShownRange(page, pageSize, Some(totalElements));
      r.last.Some? && 1 <= r.first <= r.last.value <= totalElements && r.last.value - r.first + 1 <= pageSize
  {
    assert (page + 1) * pageSize == page * pageSize + pageSize;
  }

  /** Consecutive pages tile the list: the next page starts right after this one ends. */
  lemma ConsecutiveRangesTile(page: int, pageSize: int, totalElements: int)
    requires pageSize > 0 && page >= 0 && (page + 1) * pageSize < totalElements
    ensures ShownRange(page + 1, pageSize, Some(totalElements)).first == ShownRange(page, pageSize, Some(totalElements)).last.value + 1
  {
  }

  /**
   * From a page inside 0..totalPages-1, "Previous", an enabled "Next" and the clamped "Next"
   * all stay inside it.
   */
  lemma NavigationStaysInRange(page: int, totalPages: int)
    requires 0 <= page <= totalPages - 1
    ensures 0 <= PreviousPage(page) <= totalPages - 1
    ensures !NextDisabled(page, Some(totalPages)) ==> 0 <= page + 1 <= totalPages - 1
    ensures 0 <= ClampedNextPage(page, totalPages) <= totalPages - 1
  {
  }

  /** Without a total, "Next" is never disabled and the label shows one page. */
  lemma MissingTotalKeepsNextEnabled(page: int)
    ensures !NextDisabled(page, None) && ShownTotalPages(None) == 1
  {
  }

  /**
   * The page state of a list page: the 0-based page, the totals from the last response and
   * the fixed page size. `clampsNext` says whether "Next" clamps to the last page.
   */
  class Pager {
    var page: int
    var totalPages: Option<int>
    var totalElements: Option<int>
    const pageSize: nat
    const clampsNext: bool

    ghost predicate Valid()
      reads this
    {
      page >= 0
    }

    constructor(pageSize: nat, clampsNext: bool)
      ensures Valid()
      ensures page == 0 && totalPages == Some(0) && totalElements == Some(0)
      ensures this.pageSize == pageSize && this.clampsNext == clampsNext
    {
      page, totalPages, totalElements := 0, Some(0), Some(0);
      this.pageSize := pageSize;
      this.clampsNext := clampsNext;
    }

    /** A click on "Previous"; a disabled button does nothing. */
    method Previous()
      requires Valid()
      modifies this
      ensures Valid()
      ensures page == (if PreviousDisabled(old(page)) then old(page) else PreviousPage(old(page)))
      ensures page <= old(page)
      ensures totalPages == old(totalPages) && totalElements == old(totalElements)
    {
      if !PreviousDisabled(page) {
        page := PreviousPage(page);
      }
    }

    /** A click on "Next"; a disabled button does nothing. */
    method Next()
      requires Valid()
      modifies this
      ensures Valid()
      ensures NextDisabled(old(page), totalPages) ==> page == old(page)
      ensures !NextDisabled(old(page), totalPages) ==>
                page == (if clampsNext && totalPages.Some? then ClampedNextPage(old(page), totalPages.value) else old(page) + 1)
      ensures totalPages.Some? && old(page) < totalPages.value ==> page < totalPages.value
      ensures totalPages == old(totalPages) && totalElements == old(totalElements)
    {
      if !NextDisabled(page, totalPages) {
        page := if clampsNext && totalPages.Some? then ClampedNextPage(page, totalPages.value) else page + 1;
      }
    }

    /** A filter change or a new search goes back to the first page. */
    method Reset()
      requires Valid()
      modifies this
      ensures Valid()
      ensures page == 0 && totalPages == old(totalPages) && totalElements == old(totalElements)
    {
      page := 0;
    }

    /** Totals from a response; the page index is kept. */
    method SetTotals(newTotalPages: Option<int>, newTotalElements: Option<int>)
      requires Valid()
      modifies this
      ensures Valid()
      ensures page == old(page) && totalPages == newTotalPages && totalElements == newTotalElements
    {
      totalPages, totalElements := newTotalPages, newTotalElements;
    }
  }
}
