/** The outgoing-receipt screen: the removed-quantity edit, the total removed,
    the lookup of the incoming bag a removed bag draws on, the overflow warning
    of the edit modal and the payload sent when the edit is saved. */
module OutgoingReceipt {
  import opened JsStrings
  import opened Inventory

  datatype TextField = DateOfExtraction | Remarks

  // ---------------------------------------------------------------------------
  // Edits of the receipt being edited

  predicate ValidBag(r: OutgoingOrder, o: int, b: int) {
    0 <= o < |r.orderDetails| && 0 <= b < |r.orderDetails[o].bagSizes|
  }

  /** `handleBagSizeChange`: quantityRemoved of bag b of detail o becomes
      `parseInt(value) || 0`. */
  function WithQuantityRemoved(r: OutgoingOrder, o: int, b: int, value: string): OutgoingOrder
    requires ValidBag(r, o, b)
  {
    var d := r.orderDetails[o];
    var bag' := d.bagSizes[b].(quantityRemoved := ParseIntOrZero(value));
    r.(orderDetails := r.orderDetails[o := d.(bagSizes := d.bagSizes[b := bag'])])
  }

  /** `handleInputChange` for the date and remarks boxes. */
  function WithText(r: OutgoingOrder, f: TextField, value: string): OutgoingOrder {
    match f
    case DateOfExtraction => r.(dateOfExtraction := value)
    case Remarks => r.(remarks := value)
  }

  /** A removed-quantity edit changes exactly the quantityRemoved of one bag:
      that bag's size, every other bag and detail, each detail's variety and
      incoming order, and the receipt's own fields are kept. */
  lemma QuantityRemovedEditLocal(r: OutgoingOrder, o: int, b: int, value: string)
    requires ValidBag(r, o, b)
    ensures var s := WithQuantityRemoved(r, o, b, value);
      s.id == r.id && s.coldStorageId == r.coldStorageId && s.farmerId == r.farmerId &&
      s.dateOfExtraction == r.dateOfExtraction && s.remarks == r.remarks && s.voucher == r.voucher &&
      |s.orderDetails| == |r.orderDetails| &&
      (forall i :: 0 <= i < |r.orderDetails| && i != o ==> s.orderDetails[i] == r.orderDetails[i]) &&
      s.orderDetails[o].variety == r.orderDetails[o].variety &&
      s.orderDetails[o].incomingOrder == r.orderDetails[o].incomingOrder &&
      |s.orderDetails[o].bagSizes| == |r.orderDetails[o].bagSizes| &&
      (forall j :: 0 <= j < |r.orderDetails[o].bagSizes| && j != b ==>
        s.orderDetails[o].bagSizes[j] == r.orderDetails[o].bagSizes[j]) &&
      s.orderDetails[o].bagSizes[b].size == r.orderDetails[o].bagSizes[b].size &&
      s.orderDetails[o].bagSizes[b].quantityRemoved == ParseIntOrZero(value)
  {
  }

  /** The totalQuantityRemoved reduce applied to an order with one removed
      quantity changed (as in the edited copy) differs by exactly that change.
      The screen itself computes its total from `receipt`, which no handler
      changes. */
  lemma QuantityRemovedEditTotal(r: OutgoingOrder, o: int, b: int, value: string)
    requires ValidBag(r, o, b)
    ensures TotalExtracted(WithQuantityRemoved(r, o, b, value).orderDetails) ==
      TotalExtracted(r.orderDetails) - r.orderDetails[o].bagSizes[b].quantityRemoved + ParseIntOrZero(value)
  {
    var d := r.orderDetails[o];
    var bag' := d.bagSizes[b].(quantityRemoved := ParseIntOrZero(value));
    var d' := d.(bagSizes := d.bagSizes[b := bag']);
    SumOfUpdate(d.bagSizes, b, bag', BagExtracted);
    SumOfUpdate(r.orderDetails, o, d', DetailExtracted);
  }

  // ---------------------------------------------------------------------------
  // The incoming bag a removed bag draws on

  /** Index of the first incoming bag of the given size, or -1: `find(inBag => inBag.size === size)`. */
  function FindBySize(bags: seq<IncomingBagSize>, size: string): (i: int)
    ensures -1 <= i < |bags|
    ensures 0 <= i ==> bags[i].size == size && forall j :: 0 <= j < i ==> bags[j].size != size
    ensures i == -1 ==> forall j :: 0 <= j < |bags| ==> bags[j].size != size
    decreases |bags|
  {
    if bags == [] then -1
    else if bags[0].size == size then 0
    else
      var k := FindBySize(bags[1..], size);
      if k < 0 then -1 else k + 1
  }

  /** `incomingBag?.currentQuantity || 0`: the current quantity of the first
      incoming bag of that size, 0 when there is none. */
  function Available(d: OutgoingDetail, bag: RemovedBag): int {
    var i := FindBySize(d.incomingOrder.incomingBagSizes, bag.size);
    if i < 0 then 0 else d.incomingOrder.incomingBagSizes[i].currentQuantity
  }

  /** "Cannot exceed available quantity" is shown under a bag's input. */
  predicate OverflowWarning(d: OutgoingDetail, bag: RemovedBag) {
    bag.quantityRemoved > Available(d, bag)
  }

  /** The warning shows exactly when the removed quantity exceeds the current
      quantity of the first incoming bag of that size. */
  lemma OverflowWarningMeaning(d: OutgoingDetail, bag: RemovedBag, i: int)
    requires 0 <= i < |d.incomingOrder.incomingBagSizes|
    requires d.incomingOrder.incomingBagSizes[i].size == bag.size
    requires forall j :: 0 <= j < i ==> d.incomingOrder.incomingBagSizes[j].size != bag.size
    ensures OverflowWarning(d, bag) <==> bag.quantityRemoved > d.incomingOrder.incomingBagSizes[i].currentQuantity
  {
  }

  /** With no incoming bag of the size, anything removed raises the warning. */
  lemma OverflowWithoutIncomingBag(d: OutgoingDetail, bag: RemovedBag)
    requires forall j :: 0 <= j < |d.incomingOrder.incomingBagSizes| ==> d.incomingOrder.incomingBagSizes[j].size != bag.size
    ensures OverflowWarning(d, bag) <==> bag.quantityRemoved > 0
  {
  }

  /** The table's "Available Quantity" cell: `incomingBag?.currentQuantity || "N/A"`
      (None is "N/A", shown also for a zero quantity). */
  function AvailableCell(d: OutgoingDetail, bag: RemovedBag): (c: Option<int>)
    ensures c.Some? ==> c.value == Available(d, bag) && c.value != 0
    ensures c.None? ==> Available(d, bag) == 0
  {
    if Available(d, bag) == 0 then None else Some(Available(d, bag))
  }

  function IncomingCurrent(b: IncomingBagSize): int { b.currentQuantity }

  /** The table's total available cell: the first detail's incoming bags summed,
      `|| "N/A"` for no detail or a zero sum. */
  function TotalAvailableCell(r: OutgoingOrder): (c: Option<int>)
    ensures c.Some? ==> (|r.orderDetails| > 0 && c.value != 0 &&
                         c.value == SumOf(r.orderDetails[0].incomingOrder.incomingBagSizes, IncomingCurrent))
    ensures c.None? ==> |r.orderDetails| == 0 || SumOf(r.orderDetails[0].incomingOrder.incomingBagSizes, IncomingCurrent) == 0
  {
    if |r.orderDetails| == 0 then None
    else
      var t := SumOf(r.orderDetails[0].incomingOrder.incomingBagSizes, IncomingCurrent);
      if t == 0 then None else Some(t)
  }

  // ---------------------------------------------------------------------------
  // Header fields

  /** `orderDetails[0]?.variety || "Unknown"`. */
  function MainVariety(r: OutgoingOrder): (v: string)
    ensures v == "Unknown" <==> |r.orderDetails| == 0 || r.orderDetails[0].variety in {"", "Unknown"}
    ensures v != "Unknown" ==> v == r.orderDetails[0].variety
  {
    if |r.orderDetails| > 0 && r.orderDetails[0].variety != "" then r.orderDetails[0].variety else "Unknown"
  }

  /** `orderDetails[0]?.incomingOrder?.location || "Not specified"`. */
  function MainLocation(r: OutgoingOrder): (l: string)
    ensures l == "Not specified" <==> |r.orderDetails| == 0 || r.orderDetails[0].incomingOrder.location in {"", "Not specified"}
    ensures l != "Not specified" ==> l == r.orderDetails[0].incomingOrder.location
  {
    if |r.orderDetails| > 0 && r.orderDetails[0].incomingOrder.location != "" then r.orderDetails[0].incomingOrder.location
    else "Not specified"
  }

  // ---------------------------------------------------------------------------
  // Save: the update payload

  datatype IncomingOrderId = IncomingOrderId(id: string)
  datatype DetailPayload = DetailPayload(variety: string, incomingOrder: IncomingOrderId, bagSizes: seq<RemovedBag>)
  datatype UpdateData = UpdateData(remarks: string, dateOfExtraction: string, orderDetails: seq<DetailPayload>)

  function PayloadBags(bags: seq<RemovedBag>): seq<RemovedBag> {
    seq(|bags|, j requires 0 <= j < |bags| => RemovedBag(bags[j].size, bags[j].quantityRemoved))
  }

  /** `handleSubmitEdit`'s `updateData`: every detail, in order, reduced to its
      variety, the id of its incoming order and its bags' size and quantityRemoved. */
  function SubmitPayload(r: OutgoingOrder): (p: UpdateData)
    ensures p.remarks == r.remarks && p.dateOfExtraction == r.dateOfExtraction
    ensures |p.orderDetails| == |r.orderDetails|
    ensures forall i :: 0 <= i < |r.orderDetails| ==>
      p.orderDetails[i].variety == r.orderDetails[i].variety &&
      p.orderDetails[i].incomingOrder.id == r.orderDetails[i].incomingOrder.id &&
      p.orderDetails[i].bagSizes == r.orderDetails[i].bagSizes
  {
    var ds := r.orderDetails;
    var details := seq(|ds|, i requires 0 <= i < |ds| =>
      DetailPayload(ds[i].variety, IncomingOrderId(ds[i].incomingOrder.id), PayloadBags(ds[i].bagSizes)));
    assert forall i :: 0 <= i < |ds| ==> PayloadBags(ds[i].bagSizes) == ds[i].bagSizes;
    UpdateData(r.remarks, r.dateOfExtraction, details)
  }

  function PayloadDetailTotal(d: DetailPayload): int { SumOf(d.bagSizes, BagExtracted) }

  /** The saved quantities add up to the screen's totalQuantityRemoved, and an
      edit reaches the payload at the same detail and bag. */
  lemma PayloadKeepsTotal(r: OutgoingOrder, o: int, b: int, value: string)
    requires ValidBag(r, o, b)
    ensures SumOf(SubmitPayload(r).orderDetails, PayloadDetailTotal) == TotalExtracted(r.orderDetails)
    ensures SubmitPayload(WithQuantityRemoved(r, o, b, value)).orderDetails[o].bagSizes[b].quantityRemoved ==
      ParseIntOrZero(value)
  {
    SumOfCongruent(SubmitPayload(r).orderDetails, PayloadDetailTotal, r.orderDetails, DetailExtracted);
  }

  // ---------------------------------------------------------------------------
  // Constraint validation of the edit form

  /** The form has no `noValidate`, so it is submitted only when every
      quantity box it renders (one per bag of the first detail) lies within
      its `min={0}` and `max={incomingBag?.currentQuantity || 0}`. */
  predicate FormValid(r: OutgoingOrder) {
    |r.orderDetails| == 0 ||
    forall b :: 0 <= b < |r.orderDetails[0].bagSizes| ==>
      0 <= r.orderDetails[0].bagSizes[b].quantityRemoved <= Available(r.orderDetails[0], r.orderDetails[0].bagSizes[b])
  }

  /** The form can be submitted exactly when no rendered bag shows "Cannot
      exceed available quantity" and no removed quantity is negative. */
  lemma FormValidMeaning(r: OutgoingOrder)
    requires |r.orderDetails| > 0
    ensures var d := r.orderDetails[0];
      FormValid(r) <==> forall b :: 0 <= b < |d.bagSizes| ==>
        !OverflowWarning(d, d.bagSizes[b]) && d.bagSizes[b].quantityRemoved >= 0
  {
  }

  /** Typing a quantity above the available one into a rendered box blocks the
      submit; the date and remarks boxes leave the verdict as it was. */
  lemma OverflowBlocksSubmit(r: OutgoingOrder, b: int, value: string, t: TextField, text: string)
    requires ValidBag(r, 0, b)
    requires ParseIntOrZero(value) > Available(r.orderDetails[0], r.orderDetails[0].bagSizes[b])
    ensures !FormValid(WithQuantityRemoved(r, 0, b, value))
    ensures FormValid(WithText(r, t, text)) == FormValid(r)
  {
    var s := WithQuantityRemoved(r, 0, b, value);
    assert s.orderDetails[0].bagSizes[b].quantityRemoved == ParseIntOrZero(value);
    assert s.orderDetails[0].incomingOrder == r.orderDetails[0].incomingOrder;
  }

  /** A saved form sends, for each bag of the first detail, a removed quantity
      between 0 and what is available of that size. */
  lemma SubmittedWithinAvailable(r: OutgoingOrder, b: int)
    requires FormValid(r) && ValidBag(r, 0, b)
    ensures var p := SubmitPayload(r).orderDetails[0].bagSizes[b];
      0 <= p.quantityRemoved <= Available(r.orderDetails[0], r.orderDetails[0].bagSizes[b])
  {
  }

  // ---------------------------------------------------------------------------
  // The screen's state

  class ReceiptEditor {
    var receipt: Option<OutgoingOrder>
    var edited: Option<OutgoingOrder>
    var isEditModalOpen: bool

    /** The receipt handed over by the router; the edited copy starts equal to it. */
    constructor(outgoing: Option<OutgoingOrder>)
      ensures receipt == outgoing && edited == outgoing && !isEditModalOpen
    {
      receipt := outgoing;
      edited := outgoing;
      isEditModalOpen := false;
    }

    /** Opening the modal discards earlier unsaved edits. */
    method OpenEditModal()
      modifies this
      ensures edited == receipt && isEditModalOpen && receipt == old(receipt)
    {
      edited := receipt;
      isEditModalOpen := true;
    }

    method CloseEditModal()
      modifies this
      ensures !isEditModalOpen && edited == old(edited) && receipt == old(receipt)
    {
      isEditModalOpen := false;
    }

    method ChangeQuantityRemoved(o: int, b: int, value: string)
      requires edited.Some? ==> ValidBag(edited.value, o, b)
      modifies this
      ensures edited == (if old(edited).Some? then Some(WithQuantityRemoved(old(edited).value, o, b, value)) else None)
      ensures receipt == old(receipt) && isEditModalOpen == old(isEditModalOpen)
    {
      if edited.Some? {
        edited := Some(WithQuantityRemoved(edited.value, o, b, value));
      }
    }

    method ChangeText(f: TextField, value: string)
      modifies this
      ensures edited == (if old(edited).Some? then Some(WithText(old(edited).value, f, value)) else None)
      ensures receipt == old(receipt) && isEditModalOpen == old(isEditModalOpen)
    {
      if edited.Some? {
        edited := Some(WithText(edited.value, f, value));
      }
    }

    /** Submitting the form: the browser runs `handleSubmitEdit` only when the
        form's constraints hold, and the handler then sends its request body;
        otherwise nothing is sent (None). */
    method SubmitEdit() returns (payload: Option<UpdateData>)
      ensures payload.Some? <==> edited.Some? && FormValid(edited.value)
      ensures payload.Some? ==> payload == Some(SubmitPayload(edited.value))
    {
      if edited.Some? && FormValid(edited.value) {
        payload := Some(SubmitPayload(edited.value));
      } else {
        payload := None;
      }
    }
  }
}
