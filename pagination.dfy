/** The page-number window and the "Showing X to Y of Z results" range that
    both table components compute on top of the table library's page state. */
module Pagination {

  /** Buttons shown at most. */
  const WindowWidth := 5

  function Min(a: int, b: int): int { if a <= b then a else b }
  function Max(a: int, b: int): int { if a >= b then a else b }

  /** The page index shown on the i-th button. */
  function PageNumber(pageCount: int, pageIndex: int, i: int): int {
    if pageCount <= WindowWidth then i
    else if pageIndex < 3 then i
    else if pageIndex >= pageCount - 3 then pageCount - WindowWidth + i
    else pageIndex - 2 + i
  }

  /** `Array.from(Array(Math.min(pageCount, 5)).keys()).map(i => pageNumber)`. */
  function PageWindow(pageCount: nat, pageIndex: int): seq<int> {
    seq(Min(pageCount, WindowWidth), i => PageNumber(pageCount, pageIndex, i))
  }

  /** The first button of the window, stated independently: the current page
      minus two, clamped so that the window stays within the page range. */
  function WindowStart(pageCount: nat, pageIndex: int): int {
    if pageCount <= WindowWidth then 0 else Max(0, Min(pageIndex - 2, pageCount - WindowWidth))
  }

  /** The window has min(pageCount, 5) buttons, numbered consecutively from
      WindowStart, so its entries are strictly increasing. */
  lemma PageWindowIsRun(pageCount: nat, pageIndex: int)
    ensures var w := PageWindow(pageCount, pageIndex);
            |w| == Min(pageCount, WindowWidth) &&
            (forall i :: 0 <= i < |w| ==> w[i] == WindowStart(pageCount, pageIndex) + i) &&
            (forall i, j :: 0 <= i < j < |w| ==> w[i] < w[j])
  {
  }

  /** With the current page in range, every button names an existing page and
      one of them is the current page. */
  lemma PageWindowInRange(pageCount: nat, pageIndex: int)
    requires 0 <= pageIndex < pageCount
    ensures var w := PageWindow(pageCount, pageIndex);
            (forall i :: 0 <= i < |w| ==> 0 <= w[i] < pageCount) && pageIndex in w
  {
    var w := PageWindow(pageCount, pageIndex);
    PageWindowIsRun(pageCount, pageIndex);
    var k := pageIndex - WindowStart(pageCount, pageIndex);
    assert 0 <= k < |w| && w[k] == pageIndex;
  }

  /** Unless the current page is one of the first two or last two of a long
      page list, it is the middle (third) button. */
  lemma PageWindowCentred(pageCount: nat, pageIndex: int)
    requires pageCount > WindowWidth && 2 <= pageIndex <= pageCount - 3
    ensures PageWindow(pageCount, pageIndex)[2] == pageIndex
  {
  }

  /** The table library's `setPageIndex`: the target is clamped to the last
      page and then to 0, so without pages it is 0. */
  function ClampPageIndex(target: int, pageCount: nat): (i: int)
    ensures 0 <= i && (pageCount > 0 ==> i < pageCount)
    ensures 0 <= target < pageCount ==> i == target
    ensures pageCount == 0 ==> i == 0
  {
    Max(0, Min(target, pageCount - 1))
  }

  // ---------------------------------------------------------------------------
  // "Showing X to Y of Z results"

  function ShowingFrom(pageIndex: int, pageSize: int): int {
    pageIndex * pageSize + 1
  }

  function ShowingTo(pageIndex: int, pageSize: int, rowCount: nat): int {
    Min((pageIndex + 1) * pageSize, rowCount)
  }

  /** The upper end never exceeds the row count; on a page that starts inside
      the rows, the range is non-empty, starts at the first row of the page and
      covers min(pageSize, remaining rows) rows. */
  lemma ShowingRangeBounds(pageIndex: nat, pageSize: nat, rowCount: nat)
    ensures ShowingTo(pageIndex, pageSize, rowCount) <= rowCount
    ensures 0 < pageSize && pageIndex * pageSize < rowCount ==>
      1 <= ShowingFrom(pageIndex, pageSize) <= ShowingTo(pageIndex, pageSize, rowCount) &&
      ShowingTo(pageIndex, pageSize, rowCount) - ShowingFrom(pageIndex, pageSize) + 1
        == Min(pageSize, rowCount - pageIndex * pageSize)
  {
    assert (pageIndex + 1) * pageSize == pageIndex * pageSize + pageSize;
  }

  /** Consecutive pages show adjacent ranges: the next page starts one after
      the previous one ends, as long as the previous one was full. */
  lemma ShowingRangesAdjacent(pageIndex: nat, pageSize: nat, rowCount: nat)
    requires (pageIndex + 1) * pageSize <= rowCount
    ensures ShowingFrom(pageIndex + 1, pageSize) == ShowingTo(pageIndex, pageSize, rowCount) + 1
  {
    assert (pageIndex + 1) * pageSize == pageIndex * pageSize + pageSize;
  }
}
