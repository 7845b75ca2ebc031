/** The generic table component with fuzzy global search: its pagination and
    global-filter state, the effects that overwrite that state when props
    change, the sort indicator and the null case of the fuzzy filter. The row
    models (sorting, filtering, slicing into pages) belong to the table library
    and are not part of this model. */
module TableShell {
  import opened JsStrings
  import opened Pagination

  /** Page size used when the pageSize prop is not given. */
  const DefaultPageSize := 100

  /** `column.getIsSorted()`: false, "asc" or "desc". */
  datatype SortDirection = Unsorted | Ascending | Descending

  datatype SortIcon = NoIcon | ChevronUp | ChevronDown

  /** The header's ternary: no icon when unsorted, a down chevron for
      descending and an up chevron otherwise. */
  function SortIndicator(d: SortDirection): (icon: SortIcon)
    ensures icon == NoIcon <==> d == Unsorted
    ensures icon == ChevronUp <==> d == Ascending
    ensures icon == ChevronDown <==> d == Descending
  {
    match d
    case Unsorted => NoIcon
    case Descending => ChevronDown
    case Ascending => ChevronUp
  }

  /** The global and column fuzzy filter. A null or undefined cell passes
      whatever the query; otherwise the verdict is the ranker's (a library
      function, taken as a parameter) on both strings lower-cased. */
  function FuzzyFilter(cell: Option<string>, query: string, rankPasses: (string, string) -> bool): (passed: bool)
    ensures cell.None? ==> passed
    ensures cell.Some? ==> (passed <==> rankPasses(ToLower(cell.value), ToLower(query)))
  {
    match cell
    case None => true
    case Some(text) => rankPasses(ToLower(text), ToLower(query))
  }

  /** Because both sides are lower-cased before ranking, the filter cannot tell
      a query or a cell from another that differs only in ASCII letter case. */
  lemma FuzzyFilterIgnoresCase(cell1: Option<string>, cell2: Option<string>, q1: string, q2: string,
                               rankPasses: (string, string) -> bool)
    requires cell1.None? <==> cell2.None?
    requires cell1.Some? && cell2.Some? ==> ToLower(cell1.value) == ToLower(cell2.value)
    requires ToLower(q1) == ToLower(q2)
    ensures FuzzyFilter(cell1, q1, rankPasses) == FuzzyFilter(cell2, q2, rankPasses)
  {
  }

  class TableState {
    var internalGlobalFilter: string
    var pageIndex: int
    var pageSize: int

    /** Initial state: empty internal filter, first page, the pageSize prop or 100. */
    constructor(pageSizeProp: Option<int>)
      ensures internalGlobalFilter == "" && pageIndex == 0
      ensures pageSize == (if pageSizeProp.Some? then pageSizeProp.value else DefaultPageSize)
    {
      internalGlobalFilter := "";
      pageIndex := 0;
      pageSize := if pageSizeProp.Some? then pageSizeProp.value else DefaultPageSize;
    }

    /** Effect on the pageSize prop: replaces pageSize and keeps the page index. */
    method OnPageSizeProp(newSize: int)
      modifies this
      ensures pageSize == newSize
      ensures pageIndex == old(pageIndex) && internalGlobalFilter == old(internalGlobalFilter)
    {
      pageSize := newSize;
    }

    /** Effect on the currentPage prop: a defined value becomes the page index
        (`currentPage || 0` is the identity on integers); an undefined one
        changes nothing. */
    method OnCurrentPageProp(currentPage: Option<int>)
      modifies this
      ensures pageIndex == (if currentPage.Some? then currentPage.value else old(pageIndex))
      ensures pageSize == old(pageSize) && internalGlobalFilter == old(internalGlobalFilter)
    {
      if currentPage.Some? {
        pageIndex := currentPage.value;
      }
    }

    /** The filter in force: the parent's when it passes one, else the internal one. */
    function GlobalFilter(external: Option<string>): (f: string)
      reads this
      ensures external.Some? ==> f == external.value
      ensures external.None? ==> f == internalGlobalFilter
    {
      if external.Some? then external.value else internalGlobalFilter
    }

    /** `setGlobalFilter`: forwarded to the parent's setter when one is given
        (the internal filter is untouched), otherwise stored internally. */
    method SetGlobalFilter(value: string, hasExternalSetter: bool) returns (forwarded: Option<string>)
      modifies this
      ensures hasExternalSetter ==> forwarded == Some(value) && internalGlobalFilter == old(internalGlobalFilter)
      ensures !hasExternalSetter ==> forwarded == None && internalGlobalFilter == value
      ensures !hasExternalSetter ==> GlobalFilter(None) == value
      ensures pageIndex == old(pageIndex) && pageSize == old(pageSize)
    {
      if hasExternalSetter {
        forwarded := Some(value);
      } else {
        forwarded := None;
        internalGlobalFilter := value;
      }
    }

    /** Effect copying a defined external filter into the internal one; after it
        the internal filter agrees with the filter in force. */
    method SyncExternalFilter(external: Option<string>)
      modifies this
      ensures internalGlobalFilter == (if external.Some? then external.value else old(internalGlobalFilter))
      ensures GlobalFilter(None) == GlobalFilter(external)
      ensures pageIndex == old(pageIndex) && pageSize == old(pageSize)
    {
      if external.Some? {
        internalGlobalFilter := external.value;
      }
    }

    /** Effect reporting the page index to the parent's onPageChange, when given. */
    function PageChangeNotification(hasCallback: bool): (notified: Option<int>)
      reads this
      ensures notified.Some? <==> hasCallback
      ensures notified.Some? ==> notified.value == pageIndex
    {
      if hasCallback then Some(pageIndex) else None
    }

    /** Clicking the i-th numbered button moves to the page it shows; from a
        page in range this is again a page in range. */
    method ClickPageButton(pageCount: nat, i: int)
      requires 0 <= i < |PageWindow(pageCount, pageIndex)|
      modifies this
      ensures pageIndex == old(PageWindow(pageCount, pageIndex))[i]
      ensures 0 <= old(pageIndex) < pageCount ==> 0 <= pageIndex < pageCount
      ensures pageSize == old(pageSize) && internalGlobalFilter == old(internalGlobalFilter)
    {
      var w := PageWindow(pageCount, pageIndex);
      if 0 <= pageIndex < pageCount {
        PageWindowInRange(pageCount, pageIndex);
      }
      pageIndex := w[i];
    }

    /** The "First" and "Last" buttons: `setPageIndex(0)` and
        `setPageIndex(getPageCount() - 1)`. "First" is enabled only when
        `getCanPreviousPage()` (a page before the current one) and "Last" only
        when `getCanNextPage()` (a page after it). */
    method GoToEdge(last: bool, pageCount: nat)
      requires if last then pageCount > 0 && pageIndex < pageCount - 1 else pageIndex > 0
      modifies this
      ensures pageIndex == (if last then pageCount - 1 else 0)
      ensures last || pageCount > 0 ==> 0 <= pageIndex < pageCount
      ensures pageSize == old(pageSize) && internalGlobalFilter == old(internalGlobalFilter)
    {
      if last {
        pageIndex := ClampPageIndex(pageCount - 1, pageCount);
      } else {
        pageIndex := ClampPageIndex(0, pageCount);
      }
    }
  }
}
