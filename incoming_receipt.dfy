/** The incoming-receipt screen: the edit modal's handlers, which copy the
    receipt being edited with one field replaced, the payload sent when the
    edit is saved, the totals row of the bag table and the date split. The
    handlers are specified by pure "With..." functions; the editor class holds
    the screen's state and applies them. */
module IncomingReceipt {
  import opened JsStrings
  import opened Inventory

  datatype QuantityField = InitialQuantity | CurrentQuantity
  datatype TextField = DateOfSubmission | Remarks
  datatype DetailField = VarietyField | LocationField

  // ---------------------------------------------------------------------------
  // Edits of the receipt being edited

  function QuantityOf(q: Quantity, f: QuantityField): int {
    match f
    case InitialQuantity => q.initialQuantity
    case CurrentQuantity => q.currentQuantity
  }

  function SetQuantity(q: Quantity, f: QuantityField, v: int): (r: Quantity)
    ensures QuantityOf(r, f) == v
    ensures forall g :: g != f ==> QuantityOf(r, g) == QuantityOf(q, g)
  {
    match f
    case InitialQuantity => q.(initialQuantity := v)
    case CurrentQuantity => q.(currentQuantity := v)
  }

  predicate ValidBag(r: IncomingOrder, o: int, b: int) {
    0 <= o < |r.orderDetails| && 0 <= b < |r.orderDetails[o].bagSizes|
  }

  /** `handleBagSizeChange` with a sub-field: the quantity field f of bag b of
      detail o becomes the parsed input. */
  function WithBagQuantity(r: IncomingOrder, o: int, b: int, f: QuantityField, value: string): IncomingOrder
    requires ValidBag(r, o, b)
  {
    var d := r.orderDetails[o];
    var bag := d.bagSizes[b];
    var bag' := bag.(quantity := SetQuantity(bag.quantity, f, ParseIntOrZero(value)));
    r.(orderDetails := r.orderDetails[o := d.(bagSizes := d.bagSizes[b := bag'])])
  }

  /** `handleBagSizeChange` without a sub-field (the size box): the bag's size
      becomes the raw input. */
  function WithBagSize(r: IncomingOrder, o: int, b: int, value: string): IncomingOrder
    requires ValidBag(r, o, b)
  {
    var d := r.orderDetails[o];
    r.(orderDetails := r.orderDetails[o := d.(bagSizes := d.bagSizes[b := d.bagSizes[b].(size := value)])])
  }

  /** `handleInputChange` for the date and remarks boxes. */
  function WithText(r: IncomingOrder, f: TextField, value: string): IncomingOrder {
    match f
    case DateOfSubmission => r.(dateOfSubmission := value)
    case Remarks => r.(remarks := value)
  }

  /** `handleFulfilledChange`. */
  function WithFulfilled(r: IncomingOrder, checked: bool): IncomingOrder {
    r.(fulfilled := checked)
  }

  /** `handleOrderDetailChange`: one field of detail o. */
  function WithDetailField(r: IncomingOrder, o: int, f: DetailField, value: string): IncomingOrder
    requires 0 <= o < |r.orderDetails|
  {
    var d := r.orderDetails[o];
    var d' := match f
      case VarietyField => d.(variety := value)
      case LocationField => d.(location := value);
    r.(orderDetails := r.orderDetails[o := d'])
  }

  /** The variety box: the variety of every detail becomes the input. */
  function WithAllVarieties(r: IncomingOrder, value: string): IncomingOrder {
    r.(orderDetails := seq(|r.orderDetails|, i requires 0 <= i < |r.orderDetails| =>
                             r.orderDetails[i].(variety := value)))
  }

  /** The location box: the location of every detail becomes the input. */
  function WithAllLocations(r: IncomingOrder, value: string): IncomingOrder {
    r.(orderDetails := seq(|r.orderDetails|, i requires 0 <= i < |r.orderDetails| =>
                             r.orderDetails[i].(location := value)))
  }

  /** Everything except the order details is equal. */
  predicate SameHeader(r: IncomingOrder, s: IncomingOrder) {
    r.id == s.id && r.coldStorageId == s.coldStorageId && r.farmerId == s.farmerId &&
    r.dateOfSubmission == s.dateOfSubmission && r.fulfilled == s.fulfilled &&
    r.remarks == s.remarks && r.voucher == s.voucher
  }

  /** Every detail other than o, and every bag of o other than b, is unchanged. */
  predicate SameExceptBag(r: IncomingOrder, s: IncomingOrder, o: int, b: int)
    requires ValidBag(r, o, b)
  {
    SameHeader(r, s) &&
    |s.orderDetails| == |r.orderDetails| &&
    (forall i :: 0 <= i < |r.orderDetails| && i != o ==> s.orderDetails[i] == r.orderDetails[i]) &&
    s.orderDetails[o].variety == r.orderDetails[o].variety &&
    s.orderDetails[o].location == r.orderDetails[o].location &&
    |s.orderDetails[o].bagSizes| == |r.orderDetails[o].bagSizes| &&
    (forall j :: 0 <= j < |r.orderDetails[o].bagSizes| && j != b ==>
      s.orderDetails[o].bagSizes[j] == r.orderDetails[o].bagSizes[j])
  }

  /** A quantity edit changes exactly one quantity field of one bag: the other
      field and the size of that bag, every other bag and detail, and the
      receipt's own fields are kept. */
  lemma BagQuantityEditLocal(r: IncomingOrder, o: int, b: int, f: QuantityField, value: string)
    requires ValidBag(r, o, b)
    ensures var s := WithBagQuantity(r, o, b, f, value);
      ValidBag(s, o, b) && SameExceptBag(r, s, o, b) &&
      s.orderDetails[o].bagSizes[b].size == r.orderDetails[o].bagSizes[b].size &&
      QuantityOf(s.orderDetails[o].bagSizes[b].quantity, f) == ParseIntOrZero(value) &&
      (forall g :: g != f ==>
        QuantityOf(s.orderDetails[o].bagSizes[b].quantity, g) == QuantityOf(r.orderDetails[o].bagSizes[b].quantity, g))
  {
  }

  /** A size edit changes exactly the size of one bag. */
  lemma BagSizeEditLocal(r: IncomingOrder, o: int, b: int, value: string)
    requires ValidBag(r, o, b)
    ensures var s := WithBagSize(r, o, b, value);
      ValidBag(s, o, b) && SameExceptBag(r, s, o, b) &&
      s.orderDetails[o].bagSizes[b].size == value &&
      s.orderDetails[o].bagSizes[b].quantity == r.orderDetails[o].bagSizes[b].quantity
  {
  }

  /** The totals reduce applied to an order with one bag quantity changed (as
      in the edited copy): the changed column's total differs by the change of
      that one bag, and the other column's total is the same. The screen itself
      computes its totals from `receipt`, which no handler changes. */
  lemma BagQuantityEditTotals(r: IncomingOrder, o: int, b: int, f: QuantityField, value: string)
    requires ValidBag(r, o, b)
    ensures var s := WithBagQuantity(r, o, b, f, value);
      var before := QuantityOf(r.orderDetails[o].bagSizes[b].quantity, f);
      var delta := ParseIntOrZero(value) - before;
      TotalInitial(s.orderDetails) == TotalInitial(r.orderDetails) + (if f == InitialQuantity then delta else 0) &&
      TotalCurrent(s.orderDetails) == TotalCurrent(r.orderDetails) + (if f == CurrentQuantity then delta else 0)
  {
    var d := r.orderDetails[o];
    var bag := d.bagSizes[b];
    var bag' := bag.(quantity := SetQuantity(bag.quantity, f, ParseIntOrZero(value)));
    var d' := d.(bagSizes := d.bagSizes[b := bag']);
    SumOfUpdate(d.bagSizes, b, bag', BagInitial);
    SumOfUpdate(d.bagSizes, b, bag', BagCurrent);
    SumOfUpdate(r.orderDetails, o, d', DetailInitial);
    SumOfUpdate(r.orderDetails, o, d', DetailCurrent);
  }

  /** The totals reduce gives the same totals for an order whose bag size was
      changed (as in the edited copy). */
  lemma BagSizeEditTotals(r: IncomingOrder, o: int, b: int, value: string)
    requires ValidBag(r, o, b)
    ensures var s := WithBagSize(r, o, b, value);
      TotalInitial(s.orderDetails) == TotalInitial(r.orderDetails) &&
      TotalCurrent(s.orderDetails) == TotalCurrent(r.orderDetails)
  {
    var d := r.orderDetails[o];
    var bag' := d.bagSizes[b].(size := value);
    var d' := d.(bagSizes := d.bagSizes[b := bag']);
    SumOfUpdate(d.bagSizes, b, bag', BagInitial);
    SumOfUpdate(d.bagSizes, b, bag', BagCurrent);
    SumOfUpdate(r.orderDetails, o, d', DetailInitial);
    SumOfUpdate(r.orderDetails, o, d', DetailCurrent);
  }

  /** The variety box sets every detail's variety and keeps each detail's bags
      and location, so the totals are unchanged; likewise the location box. */
  lemma AllVarietiesAndLocations(r: IncomingOrder, v: string, l: string)
    ensures var s := WithAllVarieties(r, v);
      SameHeader(r, s) && |s.orderDetails| == |r.orderDetails| &&
      (forall i :: 0 <= i < |s.orderDetails| ==>
        s.orderDetails[i].variety == v && s.orderDetails[i].location == r.orderDetails[i].location &&
        s.orderDetails[i].bagSizes == r.orderDetails[i].bagSizes) &&
      TotalInitial(s.orderDetails) == TotalInitial(r.orderDetails) &&
      TotalCurrent(s.orderDetails) == TotalCurrent(r.orderDetails)
    ensures var s := WithAllLocations(r, l);
      SameHeader(r, s) && |s.orderDetails| == |r.orderDetails| &&
      (forall i :: 0 <= i < |s.orderDetails| ==>
        s.orderDetails[i].location == l && s.orderDetails[i].variety == r.orderDetails[i].variety &&
        s.orderDetails[i].bagSizes == r.orderDetails[i].bagSizes) &&
      TotalInitial(s.orderDetails) == TotalInitial(r.orderDetails) &&
      TotalCurrent(s.orderDetails) == TotalCurrent(r.orderDetails)
  {
    var sv, sl := WithAllVarieties(r, v).orderDetails, WithAllLocations(r, l).orderDetails;
    SumOfCongruent(sv, DetailInitial, r.orderDetails, DetailInitial);
    SumOfCongruent(sv, DetailCurrent, r.orderDetails, DetailCurrent);
    SumOfCongruent(sl, DetailInitial, r.orderDetails, DetailInitial);
    SumOfCongruent(sl, DetailCurrent, r.orderDetails, DetailCurrent);
  }

  /** `handleOrderDetailChange` replaces one field of one detail and keeps its bags. */
  lemma DetailFieldEditLocal(r: IncomingOrder, o: int, f: DetailField, value: string)
    requires 0 <= o < |r.orderDetails|
    ensures var s := WithDetailField(r, o, f, value);
      SameHeader(r, s) && |s.orderDetails| == |r.orderDetails| &&
      (forall i :: 0 <= i < |r.orderDetails| && i != o ==> s.orderDetails[i] == r.orderDetails[i]) &&
      s.orderDetails[o].bagSizes == r.orderDetails[o].bagSizes &&
      (if f == VarietyField then s.orderDetails[o].variety == value && s.orderDetails[o].location == r.orderDetails[o].location
       else s.orderDetails[o].location == value && s.orderDetails[o].variety == r.orderDetails[o].variety)
  {
  }

  // ---------------------------------------------------------------------------
  // Totals row

  /** The "Removed" total is the initial total minus the current total, detail
      by detail and bag by bag. */
  lemma TotalRemovedIsDifference(details: seq<OrderDetail>)
    ensures TotalRemoved(details) == TotalInitial(details) - TotalCurrent(details)
  {
    forall i | 0 <= i < |details|
      ensures DetailRemoved(details[i]) == DetailInitial(details[i]) - DetailCurrent(details[i])
    {
      SumOfDifference(details[i].bagSizes, BagInitial, BagCurrent, BagRemoved);
    }
    SumOfDifference(details, DetailInitial, DetailCurrent, DetailRemoved);
  }

  // ---------------------------------------------------------------------------
  // Save: the update payload

  datatype UpdateData = UpdateData(
    remarks: string,
    fulfilled: bool,
    dateOfSubmission: string,
    orderDetails: seq<OrderDetail>)

  /** Field-by-field copy of the bags, as the payload's `bagSizes.map` builds it. */
  function CopyBags(bags: seq<BagSize>): seq<BagSize> {
    seq(|bags|, i requires 0 <= i < |bags| =>
      BagSize(Quantity(bags[i].quantity.initialQuantity, bags[i].quantity.currentQuantity), bags[i].size))
  }

  /** `handleSubmitEdit`'s `updateData`, built from the first detail only; with
      no detail, reading the first detail's variety throws and the save fails
      (None). */
  function SubmitPayload(r: IncomingOrder): (p: Option<UpdateData>)
    ensures p.Some? <==> |r.orderDetails| > 0
    ensures p.Some? ==>
      p.value.remarks == r.remarks && p.value.fulfilled == r.fulfilled &&
      p.value.dateOfSubmission == r.dateOfSubmission &&
      p.value.orderDetails == [r.orderDetails[0]]
  {
    if |r.orderDetails| == 0 then None
    else
      var first := r.orderDetails[0];
      assert CopyBags(first.bagSizes) == first.bagSizes;
      Some(UpdateData(r.remarks, r.fulfilled, r.dateOfSubmission,
                      [OrderDetail(first.variety, CopyBags(first.bagSizes), first.location)]))
  }

  /** The saved totals count only the first detail: the bags of every later
      detail are dropped from the payload. */
  lemma PayloadDropsLaterDetails(r: IncomingOrder)
    requires |r.orderDetails| > 0
    ensures var p := SubmitPayload(r).value;
      TotalInitial(p.orderDetails) == TotalInitial(r.orderDetails) - TotalInitial(r.orderDetails[1..]) &&
      TotalCurrent(p.orderDetails) == TotalCurrent(r.orderDetails) - TotalCurrent(r.orderDetails[1..])
  {
    var ds := r.orderDetails;
    assert ds == [ds[0]] + ds[1..];
    SumOfAppend([ds[0]], ds[1..], DetailInitial);
    SumOfAppend([ds[0]], ds[1..], DetailCurrent);
    SumOfSingle(ds[0], DetailInitial);
    SumOfSingle(ds[0], DetailCurrent);
  }

  /** What the modal edits reaches the payload: a quantity edit of a bag of the
      first detail, a variety or location typed in the boxes, and the fulfilled
      check box. */
  lemma PayloadAfterEdits(r: IncomingOrder, b: int, f: QuantityField, value: string, v: string, checked: bool)
    requires ValidBag(r, 0, b)
    ensures var p := SubmitPayload(WithBagQuantity(r, 0, b, f, value)).value;
      QuantityOf(p.orderDetails[0].bagSizes[b].quantity, f) == ParseIntOrZero(value)
    ensures SubmitPayload(WithAllVarieties(r, v)).value.orderDetails[0].variety == v
    ensures SubmitPayload(WithAllLocations(r, v)).value.orderDetails[0].location == v
    ensures SubmitPayload(WithFulfilled(r, checked)) == Some(SubmitPayload(r).value.(fulfilled := checked))
  {
  }

  // ---------------------------------------------------------------------------
  // Constraint validation of the edit form

  /** The form has no `noValidate`, so it is submitted only when its `required`
      variety and location boxes are not empty. They show the first detail's
      variety and location, or "" when there is no detail. */
  predicate FormValid(r: IncomingOrder) {
    |r.orderDetails| > 0 && r.orderDetails[0].variety != "" && r.orderDetails[0].location != ""
  }

  /** A submitted form always has a request body to send. */
  lemma ValidFormHasPayload(r: IncomingOrder)
    requires FormValid(r)
    ensures SubmitPayload(r).Some?
    ensures SubmitPayload(r).value.orderDetails[0].variety != ""
    ensures SubmitPayload(r).value.orderDetails[0].location != ""
  {
  }

  /** After typing into both boxes the form can be submitted exactly when the
      receipt has a detail and neither text is empty; the other handlers leave
      the verdict as it was. */
  lemma FormValidAfterEdits(r: IncomingOrder, v: string, l: string, b: int, f: QuantityField, value: string, t: TextField, checked: bool)
    requires ValidBag(r, 0, b)
    ensures FormValid(WithAllLocations(WithAllVarieties(r, v), l)) <==> v != "" && l != ""
    ensures FormValid(WithBagQuantity(r, 0, b, f, value)) == FormValid(r)
    ensures FormValid(WithBagSize(r, 0, b, value)) == FormValid(r)
    ensures FormValid(WithText(r, t, value)) == FormValid(r)
    ensures FormValid(WithFulfilled(r, checked)) == FormValid(r)
  {
  }

  /** A receipt without details cannot be submitted. */
  lemma NoDetailsBlocksSubmit(r: IncomingOrder, v: string, l: string)
    requires |r.orderDetails| == 0
    ensures !FormValid(WithAllLocations(WithAllVarieties(r, v), l))
  {
  }

  // ---------------------------------------------------------------------------
  // Header fields

  /** `orderDetails[0]?.variety || "Unknown"`. */
  function MainVariety(r: IncomingOrder): string {
    if |r.orderDetails| > 0 && r.orderDetails[0].variety != "" then r.orderDetails[0].variety else "Unknown"
  }

  /** `orderDetails[0]?.location || "Not specified"`. */
  function MainLocation(r: IncomingOrder): string {
    if |r.orderDetails| > 0 && r.orderDetails[0].location != "" then r.orderDetails[0].location else "Not specified"
  }

  /** The header expressions applied to an order whose varieties (locations)
      were all set, as in the edited copy: they give the text set, unless it is
      empty or the order has no detail. The screen itself computes its header
      from `receipt`, which no handler changes. */
  lemma HeaderAfterEdits(r: IncomingOrder, v: string, l: string)
    ensures MainVariety(WithAllVarieties(r, v)) == (if |r.orderDetails| > 0 && v != "" then v else "Unknown")
    ensures MainLocation(WithAllLocations(r, l)) == (if |r.orderDetails| > 0 && l != "" then l else "Not specified")
  {
  }

  // ---------------------------------------------------------------------------
  // The screen's state

  class ReceiptEditor {
    var receipt: Option<IncomingOrder>
    var edited: Option<IncomingOrder>
    var isEditModalOpen: bool

    /** The receipt handed over by the router; the edited copy starts equal to it. */
    constructor(incoming: Option<IncomingOrder>)
      ensures receipt == incoming && edited == incoming && !isEditModalOpen
    {
      receipt := incoming;
      edited := incoming;
      isEditModalOpen := false;
    }

    /** Opening the modal discards earlier unsaved edits. */
    method OpenEditModal()
      modifies this
      ensures edited == receipt && isEditModalOpen && receipt == old(receipt)
    {
      edited := receipt;
      isEditModalOpen := true;
    }

    method CloseEditModal()
      modifies this
      ensures !isEditModalOpen && edited == old(edited) && receipt == old(receipt)
    {
      isEditModalOpen := false;
    }

    method ChangeBagQuantity(o: int, b: int, f: QuantityField, value: string)
      requires edited.Some? ==> ValidBag(edited.value, o, b)
      modifies this
      ensures edited == (if old(edited).Some? then Some(WithBagQuantity(old(edited).value, o, b, f, value)) else None)
      ensures receipt == old(receipt) && isEditModalOpen == old(isEditModalOpen)
    {
      if edited.Some? {
        edited := Some(WithBagQuantity(edited.value, o, b, f, value));
      }
    }

    method ChangeBagSize(o: int, b: int, value: string)
      requires edited.Some? ==> ValidBag(edited.value, o, b)
      modifies this
      ensures edited == (if old(edited).Some? then Some(WithBagSize(old(edited).value, o, b, value)) else None)
      ensures receipt == old(receipt) && isEditModalOpen == old(isEditModalOpen)
    {
      if edited.Some? {
        edited := Some(WithBagSize(edited.value, o, b, value));
      }
    }

    method ChangeText(f: TextField, value: string)
      modifies this
      ensures edited == (if old(edited).Some? then Some(WithText(old(edited).value, f, value)) else None)
      ensures receipt == old(receipt) && isEditModalOpen == old(isEditModalOpen)
    {
      if edited.Some? {
        edited := Some(WithText(edited.value, f, value));
      }
    }

    method ChangeFulfilled(checked: bool)
      modifies this
      ensures edited == (if old(edited).Some? then Some(WithFulfilled(old(edited).value, checked)) else None)
      ensures receipt == old(receipt) && isEditModalOpen == old(isEditModalOpen)
    {
      if edited.Some? {
        edited := Some(WithFulfilled(edited.value, checked));
      }
    }

    method ChangeDetailField(o: int, f: DetailField, value: string)
      requires edited.Some? ==> 0 <= o < |edited.value.orderDetails|
      modifies this
      ensures edited == (if old(edited).Some? then Some(WithDetailField(old(edited).value, o, f, value)) else None)
      ensures receipt == old(receipt) && isEditModalOpen == old(isEditModalOpen)
    {
      if edited.Some? {
        edited := Some(WithDetailField(edited.value, o, f, value));
      }
    }

    method ChangeVariety(value: string)
      modifies this
      ensures edited == (if old(edited).Some? then Some(WithAllVarieties(old(edited).value, value)) else None)
      ensures receipt == old(receipt) && isEditModalOpen == old(isEditModalOpen)
    {
      if edited.Some? {
        edited := Some(WithAllVarieties(edited.value, value));
      }
    }

    method ChangeLocation(value: string)
      modifies this
      ensures edited == (if old(edited).Some? then Some(WithAllLocations(old(edited).value, value)) else None)
      ensures receipt == old(receipt) && isEditModalOpen == old(isEditModalOpen)
    {
      if edited.Some? {
        edited := Some(WithAllLocations(edited.value, value));
      }
    }

    /** Submitting the form: the browser runs `handleSubmitEdit` only when the
        form's constraints hold, and the handler then sends its request body;
        otherwise nothing is sent (None). */
    method SubmitEdit() returns (payload: Option<UpdateData>)
      ensures payload.Some? <==> edited.Some? && FormValid(edited.value)
      ensures payload.Some? ==> payload == SubmitPayload(edited.value)
    {
      if edited.Some? && FormValid(edited.value) {
        payload := SubmitPayload(edited.value);
      } else {
        payload := None;
      }
    }
  }
}
