/** The second table component (no global search, with a column-visibility
    menu): its pagination and visibility state, the dictionary-lookup sort
    indicator and the rule for showing a column's filter input. */
module DataTableShell {
  import opened JsStrings
  import opened Pagination
  import TableShell

  /** Page size used when the pageSize prop is not given. */
  const DefaultPageSize := 10

  /** `String(column.getIsSorted())`: "false", "asc" or "desc". */
  function SortKey(d: TableShell.SortDirection): string {
    match d
    case Unsorted => "false"
    case Ascending => "asc"
    case Descending => "desc"
  }

  /** The object literal indexed by the sort key. */
  const IconByKey: map<string, TableShell.SortIcon> :=
    map["asc" := TableShell.ChevronUp, "desc" := TableShell.ChevronDown]

  /** `{asc: up, desc: down}[key] ?? null`. */
  function SortIndicator(d: TableShell.SortDirection): TableShell.SortIcon {
    if SortKey(d) in IconByKey then IconByKey[SortKey(d)] else TableShell.NoIcon
  }

  /** The lookup table renders the same icon as the other component's ternary:
      up for ascending, down for descending, none when unsorted. */
  lemma SortIndicatorAgrees(d: TableShell.SortDirection)
    ensures SortIndicator(d) == TableShell.SortIndicator(d)
    ensures SortIndicator(TableShell.Ascending) == TableShell.ChevronUp
    ensures SortIndicator(TableShell.Descending) == TableShell.ChevronDown
    ensures SortIndicator(TableShell.Unsorted) == TableShell.NoIcon
  {
    assert "false" !in IconByKey;
  }

  class DataTableState {
    var pageIndex: int
    var pageSize: int
    /** Column id to visibility; a column without an entry is visible. */
    var columnVisibility: map<string, bool>

    /** Initial state: first page, the pageSize prop or 10, every column visible. */
    constructor(pageSizeProp: Option<int>)
      ensures pageIndex == 0 && columnVisibility == map[]
      ensures pageSize == (if pageSizeProp.Some? then pageSizeProp.value else DefaultPageSize)
    {
      pageIndex := 0;
      pageSize := if pageSizeProp.Some? then pageSizeProp.value else DefaultPageSize;
      columnVisibility := map[];
    }

    /** Effect on the pageSize prop: replaces pageSize and keeps the page index. */
    method OnPageSizeProp(newSize: int)
      modifies this
      ensures pageSize == newSize
      ensures pageIndex == old(pageIndex) && columnVisibility == old(columnVisibility)
    {
      pageSize := newSize;
    }

    function IsVisible(columnId: string): bool
      reads this
    {
      columnId !in columnVisibility || columnVisibility[columnId]
    }

    /** A column's filter input is rendered only when the column can filter and
        is visible. */
    function FilterInputShown(columnId: string, canFilter: bool): (shown: bool)
      reads this
      ensures shown <==> canFilter && (columnId !in columnVisibility || columnVisibility[columnId])
    {
      canFilter && IsVisible(columnId)
    }

    /** A checkbox of the visibility menu: sets one column's visibility and no
        other column's. */
    method SetColumnVisibility(columnId: string, visible: bool)
      modifies this
      ensures columnVisibility == old(columnVisibility)[columnId := visible]
      ensures IsVisible(columnId) == visible
      ensures forall c :: c != columnId ==> IsVisible(c) == old(IsVisible(c))
      ensures !visible ==> forall canFilter :: !FilterInputShown(columnId, canFilter)
      ensures pageIndex == old(pageIndex) && pageSize == old(pageSize)
    {
      columnVisibility := columnVisibility[columnId := visible];
    }

    /** Clicking the i-th numbered button moves to the page it shows; from a
        page in range this is again a page in range. */
    method ClickPageButton(pageCount: nat, i: int)
      requires 0 <= i < |PageWindow(pageCount, pageIndex)|
      modifies this
      ensures pageIndex == old(PageWindow(pageCount, pageIndex))[i]
      ensures 0 <= old(pageIndex) < pageCount ==> 0 <= pageIndex < pageCount
      ensures pageSize == old(pageSize) && columnVisibility == old(columnVisibility)
    {
      var w := PageWindow(pageCount, pageIndex);
      if 0 <= pageIndex < pageCount {
        PageWindowInRange(pageCount, pageIndex);
      }
      pageIndex := w[i];
    }

    /** The "First" and "Last" buttons: `setPageIndex(0)` and
        `setPageIndex(getPageCount() - 1)`. "First" is enabled only when
        `getCanPreviousPage()` (a page before the current one) and "Last" only
        when `getCanNextPage()` (a page after it). */
    method GoToEdge(last: bool, pageCount: nat)
      requires if last then pageCount > 0 && pageIndex < pageCount - 1 else pageIndex > 0
      modifies this
      ensures pageIndex == (if last then pageCount - 1 else 0)
      ensures last || pageCount > 0 ==> 0 <= pageIndex < pageCount
      ensures pageSize == old(pageSize) && columnVisibility == old(columnVisibility)
    {
      if last {
        pageIndex := ClampPageIndex(pageCount - 1, pageCount);
      } else {
        pageIndex := ClampPageIndex(0, pageCount);
      }
    }
  }
}
