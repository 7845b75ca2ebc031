/** Column definitions of the incoming-orders table: the "Total Bags" cell and
    the per-column filter predicates. The variety, location and status
    predicates are declared with two parameters `(row, filterValue)`, but the
    table library calls every filter as `(row, columnId, filterValue)` (the
    voucher filter of the same file uses that convention), so at run time their
    second parameter holds the column id. Each is modelled as written over
    `(row, s)`, then as it is called, then as evidently intended. */
module IncomingOrderColumns {
  import opened JsStrings
  import opened Inventory

  // ---------------------------------------------------------------------------
  // calculateTotalBags = TotalInitial

  /** calculateTotalBags is 0 for no details and adds up over concatenated detail lists. */
  lemma TotalBagsAdditive(a: seq<OrderDetail>, b: seq<OrderDetail>)
    ensures TotalInitial([]) == 0
    ensures TotalInitial(a + b) == TotalInitial(a) + TotalInitial(b)
  {
    SumOfAppend(a, b, DetailInitial);
  }

  /** calculateTotalBags reads only initialQuantity: two detail lists of the same
      shape whose bags agree on initialQuantity have the same total, whatever
      their currentQuantity, size, variety or location. */
  lemma TotalBagsIgnoresCurrent(a: seq<OrderDetail>, b: seq<OrderDetail>)
    requires |a| == |b|
    requires forall i :: 0 <= i < |a| ==> |a[i].bagSizes| == |b[i].bagSizes|
    requires forall i, j :: 0 <= i < |a| && 0 <= j < |a[i].bagSizes| ==>
      a[i].bagSizes[j].quantity.initialQuantity == b[i].bagSizes[j].quantity.initialQuantity
    ensures TotalInitial(a) == TotalInitial(b)
  {
    forall i | 0 <= i < |a| ensures DetailInitial(a[i]) == DetailInitial(b[i]) {
      SumOfCongruent(a[i].bagSizes, BagInitial, b[i].bagSizes, BagInitial);
    }
    SumOfCongruent(a, DetailInitial, b, DetailInitial);
  }

  // ---------------------------------------------------------------------------
  // Voucher number: (row, columnId, filterValue), exact match of string forms

  predicate VoucherFilter(row: IncomingOrder, filterValue: string) {
    IntToString(row.voucher.voucherNumber) == filterValue
  }

  /** Typing the string form of a number selects exactly the rows with that voucher number. */
  lemma VoucherFilterExact(row: IncomingOrder, k: int)
    ensures VoucherFilter(row, IntToString(k)) <==> row.voucher.voucherNumber == k
  {
    IntToStringInjective(row.voucher.voucherNumber, k);
  }

  // ---------------------------------------------------------------------------
  // Variety, location and status: declared as (row, s)

  /** Some detail's variety contains s, ignoring case. */
  predicate VarietyFilter(row: IncomingOrder, s: string) {
    exists i | 0 <= i < |row.orderDetails| :: ContainsIgnoreCase(row.orderDetails[i].variety, s)
  }

  /** Some detail's location contains s, ignoring case. */
  predicate LocationFilter(row: IncomingOrder, s: string) {
    exists i | 0 <= i < |row.orderDetails| :: ContainsIgnoreCase(row.orderDetails[i].location, s)
  }

  function StatusLabel(fulfilled: bool): string {
    if fulfilled then "fulfilled" else "pending"
  }

  /** "fulfilled" or "pending", by row, contains s lower-cased. */
  predicate StatusFilter(row: IncomingOrder, s: string) {
    Includes(StatusLabel(row.fulfilled), ToLower(s))
  }

  /** A row without order details never passes the variety or location filter,
      and a row passes both for a variety and a location it holds, typed in any case. */
  lemma VarietyLocationFilterCases(row: IncomingOrder, i: int, v: string, l: string)
    requires 0 <= i < |row.orderDetails|
    requires ToLower(v) == ToLower(row.orderDetails[i].variety)
    requires ToLower(l) == ToLower(row.orderDetails[i].location)
    ensures VarietyFilter(row, v) && LocationFilter(row, l)
    ensures VarietyFilter(row.(orderDetails := []), v) == false
    ensures LocationFilter(row.(orderDetails := []), l) == false
  {
    ContainsIgnoreCaseSelf(row.orderDetails[i].variety, v);
    ContainsIgnoreCaseSelf(row.orderDetails[i].location, l);
  }

  /** The empty string passes every row's status. */
  lemma StatusFilterEmpty(row: IncomingOrder)
    ensures StatusFilter(row, "")
  {
    IncludesEmpty(StatusLabel(row.fulfilled));
  }

  /** "pending" (in any case) passes exactly the unfulfilled rows. */
  lemma StatusFilterPending(row: IncomingOrder, s: string)
    requires ToLower(s) == "pending"
    ensures StatusFilter(row, s) <==> !row.fulfilled
  {
    if row.fulfilled {
      IncludesFirstCharAbsent("fulfilled", "pending");
    } else {
      IncludesSelf("pending");
    }
  }

  /** "fulfilled" (in any case) passes exactly the fulfilled rows. */
  lemma StatusFilterFulfilled(row: IncomingOrder, s: string)
    requires ToLower(s) == "fulfilled"
    ensures StatusFilter(row, s) <==> row.fulfilled
  {
    if row.fulfilled {
      IncludesSelf("fulfilled");
    } else {
      IncludesTooLong("pending", "fulfilled");
    }
  }

  // ---------------------------------------------------------------------------
  // As called by the table: the second argument is the column id

  const VarietyColumnId := "orderDetails"
  const LocationColumnId := "location"
  const StatusColumnId := "fulfilled"

  predicate VarietyFilterAsCalled(row: IncomingOrder, columnId: string, filterValue: string) {
    VarietyFilter(row, columnId)
  }

  predicate LocationFilterAsCalled(row: IncomingOrder, columnId: string, filterValue: string) {
    LocationFilter(row, columnId)
  }

  predicate StatusFilterAsCalled(row: IncomingOrder, columnId: string, filterValue: string) {
    StatusFilter(row, columnId)
  }

  /** As called, the status filter ignores what is typed: whatever the filter
      value, it passes exactly the fulfilled rows; a pending row searched for by
      typing "pending" is hidden. */
  lemma StatusFilterAsCalledIgnoresInput(row: IncomingOrder, filterValue: string)
    ensures StatusFilterAsCalled(row, StatusColumnId, filterValue) <==> row.fulfilled
    ensures !row.fulfilled ==> !StatusFilterAsCalled(row, StatusColumnId, "pending")
  {
    StatusColumnIdIsLower();
    StatusFilterFulfilled(row, StatusColumnId);
  }

  lemma StatusColumnIdIsLower()
    ensures ToLower(StatusColumnId) == "fulfilled"
  {
    ToLowerOfLower(StatusColumnId);
  }

  /** As called, the variety filter hides a row whose only variety is typed in
      full: it looks for "orderdetails" inside the variety instead. */
  lemma VarietyFilterAsCalledMissesMatch()
    ensures var row := IncomingOrder("o1", "c1", "f1", "01.02.24", false, "",
                                     [OrderDetail("Jyoti", [], "A1")], Voucher("RECEIPT", 1));
            !VarietyFilterAsCalled(row, VarietyColumnId, "Jyoti")
  {
    var row := IncomingOrder("o1", "c1", "f1", "01.02.24", false, "",
                             [OrderDetail("Jyoti", [], "A1")], Voucher("RECEIPT", 1));
    VarietyFilterAsCalledHidesShort(row, VarietyColumnId, "Jyoti");
  }

  /** As called, a row whose varieties are all shorter than the column id is
      hidden by the variety filter, whatever is typed. */
  lemma VarietyFilterAsCalledHidesShort(row: IncomingOrder, columnId: string, f: string)
    requires forall i :: 0 <= i < |row.orderDetails| ==> |row.orderDetails[i].variety| < |columnId|
    ensures !VarietyFilterAsCalled(row, columnId, f)
  {
    forall i | 0 <= i < |row.orderDetails|
      ensures !ContainsIgnoreCase(row.orderDetails[i].variety, columnId)
    {
      ContainsIgnoreCaseTooLong(row.orderDetails[i].variety, columnId);
    }
  }

  // ---------------------------------------------------------------------------
  // As evidently intended: the typed value is the pattern

  predicate VarietyFilterCorrected(row: IncomingOrder, columnId: string, filterValue: string) {
    VarietyFilter(row, filterValue)
  }

  predicate LocationFilterCorrected(row: IncomingOrder, columnId: string, filterValue: string) {
    LocationFilter(row, filterValue)
  }

  predicate StatusFilterCorrected(row: IncomingOrder, columnId: string, filterValue: string) {
    StatusFilter(row, filterValue)
  }

  /** With the typed value as pattern, every row is found by typing one of its
      own varieties or locations in any case, and "pending" selects exactly the
      pending rows. */
  lemma CorrectedFiltersFindRow(row: IncomingOrder, i: int)
    requires 0 <= i < |row.orderDetails|
    ensures VarietyFilterCorrected(row, VarietyColumnId, row.orderDetails[i].variety)
    ensures LocationFilterCorrected(row, LocationColumnId, row.orderDetails[i].location)
    ensures StatusFilterCorrected(row, StatusColumnId, "pending") <==> !row.fulfilled
  {
    ContainsIgnoreCaseSelf(row.orderDetails[i].variety, row.orderDetails[i].variety);
    ContainsIgnoreCaseSelf(row.orderDetails[i].location, row.orderDetails[i].location);
    ToLowerOfLower("pending");
    StatusFilterPending(row, "pending");
  }
}
