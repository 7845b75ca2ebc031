/** Column definitions of the outgoing-orders table: the "Total Bags Extracted"
    cell and the filter predicates. As in the incoming-orders table, the variety
    and location predicates are declared as `(row, filterValue)` while the table
    library passes the column id second. The variety predicate is modelled as
    written, as called and as evidently intended; the location column has no
    accessor, so the table never offers a filter for it and its predicate is
    modelled as written and as evidently intended only. */
module OutgoingOrderColumns {
  import opened JsStrings
  import opened Inventory
  import opened DataTableShell

  // ---------------------------------------------------------------------------
  // calculateTotalBagsExtracted = TotalExtracted

  /** The extracted total is 0 for no details, adds up over concatenated detail
      lists, and is the plain sum of quantityRemoved over every bag line. */
  lemma TotalExtractedAdditive(a: seq<OutgoingDetail>, b: seq<OutgoingDetail>)
    ensures TotalExtracted([]) == 0
    ensures TotalExtracted(a + b) == TotalExtracted(a) + TotalExtracted(b)
  {
    SumOfAppend(a, b, DetailExtracted);
  }

  /** Raising one bag line's quantityRemoved by delta raises the total by delta. */
  lemma TotalExtractedUpdate(details: seq<OutgoingDetail>, i: int, j: int, q: int)
    requires 0 <= i < |details| && 0 <= j < |details[i].bagSizes|
    ensures var d := details[i];
            var d' := d.(bagSizes := d.bagSizes[j := d.bagSizes[j].(quantityRemoved := q)]);
            TotalExtracted(details[i := d']) == TotalExtracted(details) + q - d.bagSizes[j].quantityRemoved
  {
    var d := details[i];
    var d' := d.(bagSizes := d.bagSizes[j := d.bagSizes[j].(quantityRemoved := q)]);
    SumOfUpdate(d.bagSizes, j, d.bagSizes[j].(quantityRemoved := q), BagExtracted);
    SumOfUpdate(details, i, d', DetailExtracted);
  }

  /** Non-negative extractions give a non-negative total. */
  lemma TotalExtractedNonNegative(details: seq<OutgoingDetail>)
    requires forall i, j :: 0 <= i < |details| && 0 <= j < |details[i].bagSizes| ==>
      details[i].bagSizes[j].quantityRemoved >= 0
    ensures TotalExtracted(details) >= 0
  {
    forall i | 0 <= i < |details| ensures DetailExtracted(details[i]) >= 0 {
      SumOfNonNegative(details[i].bagSizes, BagExtracted);
    }
    SumOfNonNegative(details, DetailExtracted);
  }

  // ---------------------------------------------------------------------------
  // Voucher number

  predicate VoucherFilter(row: OutgoingOrder, filterValue: string) {
    IntToString(row.voucher.voucherNumber) == filterValue
  }

  /** Typing the string form of a number selects exactly the rows with that voucher number. */
  lemma VoucherFilterExact(row: OutgoingOrder, k: int)
    ensures VoucherFilter(row, IntToString(k)) <==> row.voucher.voucherNumber == k
  {
    IntToStringInjective(row.voucher.voucherNumber, k);
  }

  // ---------------------------------------------------------------------------
  // Variety and location: declared as (row, s)

  /** Some detail's variety contains s, ignoring case. */
  predicate VarietyFilter(row: OutgoingOrder, s: string) {
    exists i | 0 <= i < |row.orderDetails| :: ContainsIgnoreCase(row.orderDetails[i].variety, s)
  }

  /** Some detail's source incoming order is stored at a location containing s, ignoring case. */
  predicate LocationFilter(row: OutgoingOrder, s: string) {
    exists i | 0 <= i < |row.orderDetails| :: ContainsIgnoreCase(row.orderDetails[i].incomingOrder.location, s)
  }

  /** A row passes for a variety and a location it holds, typed in any case, and
      a row without details passes neither. */
  lemma VarietyLocationFilterCases(row: OutgoingOrder, i: int, v: string, l: string)
    requires 0 <= i < |row.orderDetails|
    requires ToLower(v) == ToLower(row.orderDetails[i].variety)
    requires ToLower(l) == ToLower(row.orderDetails[i].incomingOrder.location)
    ensures VarietyFilter(row, v) && LocationFilter(row, l)
    ensures VarietyFilter(row.(orderDetails := []), v) == false
    ensures LocationFilter(row.(orderDetails := []), l) == false
  {
    ContainsIgnoreCaseSelf(row.orderDetails[i].variety, v);
    ContainsIgnoreCaseSelf(row.orderDetails[i].incomingOrder.location, l);
  }

  // ---------------------------------------------------------------------------
  // Which columns the table can filter

  /** The parts of a column definition that decide filtering: its id, the
      accessor key if it has one, and whether it declares a filterFn. */
  datatype ColumnDef = ColumnDef(id: string, accessorKey: Option<string>, hasFilterFn: bool)

  const VarietyColumnId := "orderDetails"
  const LocationColumnId := "location"

  /** The variety column is declared with `accessorKey: "orderDetails"`. */
  const VarietyColumn := ColumnDef(VarietyColumnId, Some(VarietyColumnId), true)
  /** The location column has an id and a filterFn but no accessor. */
  const LocationColumn := ColumnDef(LocationColumnId, None, true)

  /** `column.getCanFilter()` with the table's default options: only a column
      with an accessor can be filtered, whatever filterFn it declares. */
  predicate CanFilter(c: ColumnDef) {
    c.accessorKey.Some?
  }

  /** The data table renders no filter input for the location column, whatever
      the column visibility, so its filterFn is never called; the variety column
      gets an input exactly while it is visible. */
  lemma LocationFilterUnreachable(table: DataTableState)
    ensures !table.FilterInputShown(LocationColumn.id, CanFilter(LocationColumn))
    ensures table.FilterInputShown(VarietyColumn.id, CanFilter(VarietyColumn)) <==> table.IsVisible(VarietyColumnId)
  {
    assert !CanFilter(LocationColumn);
    assert CanFilter(VarietyColumn);
  }

  // ---------------------------------------------------------------------------
  // As called by the table: the second argument is the column id

  predicate VarietyFilterAsCalled(row: OutgoingOrder, columnId: string, filterValue: string) {
    VarietyFilter(row, columnId)
  }

  /** As called, the variety filter ignores what is typed: the outcome is the
      same for any two filter values. */
  lemma AsCalledIgnoresInput(row: OutgoingOrder, f1: string, f2: string)
    ensures VarietyFilterAsCalled(row, VarietyColumnId, f1) == VarietyFilterAsCalled(row, VarietyColumnId, f2)
  {
  }

  /** A delivery of "Jyoti", searched for by typing "Jyoti", is hidden by the
      variety filter as called. */
  lemma AsCalledMissesMatch()
    ensures var row := OutgoingOrder("o1", "c1", "f1", "01.02.24", "",
                                     [OutgoingDetail("Jyoti", IncomingOrderRef("i1", "A1", Voucher("RECEIPT", 1), []), [])],
                                     Voucher("DELIVERY", 1));
            !VarietyFilterAsCalled(row, VarietyColumnId, "Jyoti")
  {
    var row := OutgoingOrder("o1", "c1", "f1", "01.02.24", "",
                             [OutgoingDetail("Jyoti", IncomingOrderRef("i1", "A1", Voucher("RECEIPT", 1), []), [])],
                             Voucher("DELIVERY", 1));
    AsCalledHidesShortVarieties(row, VarietyColumnId, "Jyoti");
  }

  /** As called, a row whose varieties are all shorter than the column id is
      hidden by the variety filter, whatever is typed. */
  lemma AsCalledHidesShortVarieties(row: OutgoingOrder, columnId: string, f: string)
    requires forall i :: 0 <= i < |row.orderDetails| ==> |row.orderDetails[i].variety| < |columnId|
    ensures !VarietyFilterAsCalled(row, columnId, f)
  {
    forall i | 0 <= i < |row.orderDetails|
      ensures !ContainsIgnoreCase(row.orderDetails[i].variety, columnId)
    {
      ContainsIgnoreCaseTooLong(row.orderDetails[i].variety, columnId);
    }
  }

  // ---------------------------------------------------------------------------
  // As evidently intended

  predicate VarietyFilterCorrected(row: OutgoingOrder, columnId: string, filterValue: string) {
    VarietyFilter(row, filterValue)
  }

  predicate LocationFilterCorrected(row: OutgoingOrder, columnId: string, filterValue: string) {
    LocationFilter(row, filterValue)
  }

  /** With the typed value as pattern, every row is found by typing one of its
      own varieties or source locations, and the empty filter keeps every row
      that has a detail. */
  lemma CorrectedFiltersFindRow(row: OutgoingOrder, i: int)
    requires 0 <= i < |row.orderDetails|
    ensures VarietyFilterCorrected(row, VarietyColumnId, row.orderDetails[i].variety)
    ensures LocationFilterCorrected(row, LocationColumnId, row.orderDetails[i].incomingOrder.location)
    ensures VarietyFilterCorrected(row, VarietyColumnId, "") && LocationFilterCorrected(row, LocationColumnId, "")
  {
    ContainsIgnoreCaseSelf(row.orderDetails[i].variety, row.orderDetails[i].variety);
    ContainsIgnoreCaseSelf(row.orderDetails[i].incomingOrder.location, row.orderDetails[i].incomingOrder.location);
    IncludesEmpty(ToLower(row.orderDetails[i].variety));
    IncludesEmpty(ToLower(row.orderDetails[i].incomingOrder.location));
  }
}
