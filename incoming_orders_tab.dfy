/** The incoming-orders tab of a cold storage: the list of orders turned into
    table rows with display fallbacks, and the three summary counters (total,
    pending and unique farmers). */
module IncomingOrdersTab {
  import opened JsStrings

  datatype TabVoucher = TabVoucher(voucherNumber: Option<string>, voucherType: Option<string>)
  datatype TabDetail = TabDetail(variety: Option<string>, location: Option<string>)

  /** An order as the tab receives it; optional fields may be absent. */
  datatype TabOrder = TabOrder(
    id: string, farmerId: string, farmerName: Option<string>, dateOfSubmission: string,
    fulfilled: bool, remarks: Option<string>, voucher: Option<TabVoucher>,
    orderDetails: Option<seq<TabDetail>>)

  /** A row of the table. */
  datatype Row = Row(
    id: string, voucherNumber: string, voucherType: string, farmerId: string,
    farmerName: string, dateOfSubmission: string, fulfilled: bool,
    remarks: Option<string>, variety: string, location: string, fullDetails: TabOrder)

  /** `o || fallback` for an optional string: absent and "" are both falsy. */
  function OrElse(o: Option<string>, fallback: string): (r: string)
    ensures r == fallback <==> (o.None? || o.value == "" || o.value == fallback)
    ensures r != fallback ==> o.Some? && r == o.value
  {
    if o.Some? && o.value != "" then o.value else fallback
  }

  /** `s.slice(-5)`: the last five characters, or all of s when shorter. */
  function LastFive(s: string): (r: string)
    ensures |r| == (if |s| < 5 then |s| else 5)
    ensures s == s[..|s| - |r|] + r
  {
    if |s| < 5 then s else s[|s| - 5..]
  }

  function VoucherNumberOf(order: TabOrder): Option<string> {
    if order.voucher.Some? then order.voucher.value.voucherNumber else None
  }

  function VoucherTypeOf(order: TabOrder): Option<string> {
    if order.voucher.Some? then order.voucher.value.voucherType else None
  }

  /** `order.orderDetails?.[0]`. */
  function FirstDetail(order: TabOrder): Option<TabDetail> {
    if order.orderDetails.Some? && |order.orderDetails.value| > 0
    then Some(order.orderDetails.value[0]) else None
  }

  function VarietyOf(order: TabOrder): Option<string> {
    if FirstDetail(order).Some? then FirstDetail(order).value.variety else None
  }

  function LocationOf(order: TabOrder): Option<string> {
    if FirstDetail(order).Some? then FirstDetail(order).value.location else None
  }

  /** The row shown for one order. */
  function ToRow(order: TabOrder): (row: Row)
    ensures row.id == order.id && row.farmerId == order.farmerId && row.fullDetails == order
    ensures row.dateOfSubmission == order.dateOfSubmission && row.fulfilled == order.fulfilled
    ensures row.remarks == order.remarks
  {
    Row(order.id, OrElse(VoucherNumberOf(order), "N/A"), OrElse(VoucherTypeOf(order), "N/A"),
        order.farmerId, OrElse(order.farmerName, "Farmer " + LastFive(order.farmerId)),
        order.dateOfSubmission, order.fulfilled, order.remarks,
        OrElse(VarietyOf(order), "N/A"), OrElse(LocationOf(order), "N/A"), order)
  }

  /** The rows of the table: one per order, in order; no response gives none. */
  function TransformOrders(data: Option<seq<TabOrder>>): (rows: seq<Row>)
    ensures data.None? ==> rows == []
    ensures data.Some? ==> |rows| == |data.value|
    ensures data.Some? ==> forall i :: 0 <= i < |rows| ==> rows[i].id == data.value[i].id && rows[i].fullDetails == data.value[i]
  {
    if data.None? then [] else seq(|data.value|, i requires 0 <= i < |data.value| => ToRow(data.value[i]))
  }

  /** The display fallbacks: "N/A" for a missing or empty voucher number,
      voucher type, first variety or first location, and "Farmer " followed by
      the end of the farmer id for a missing or empty farmer name. */
  lemma RowFallbacks(order: TabOrder)
    ensures var row := ToRow(order);
      (row.voucherNumber == "N/A" <==> (VoucherNumberOf(order).None? || VoucherNumberOf(order).value in {"", "N/A"})) &&
      (row.voucherType == "N/A" <==> (VoucherTypeOf(order).None? || VoucherTypeOf(order).value in {"", "N/A"})) &&
      (row.variety == "N/A" <==> (VarietyOf(order).None? || VarietyOf(order).value in {"", "N/A"})) &&
      (row.location == "N/A" <==> (LocationOf(order).None? || LocationOf(order).value in {"", "N/A"}))
    ensures (order.farmerName.None? || order.farmerName.value == "") ==>
      ToRow(order).farmerName == "Farmer " + LastFive(order.farmerId)
    ensures order.farmerName.Some? && order.farmerName.value != "" ==>
      ToRow(order).farmerName == order.farmerName.value
  {
  }

  /** An order without details shows "N/A" for both variety and location. */
  lemma NoDetailsShowsNA(order: TabOrder)
    requires order.orderDetails.None? || order.orderDetails.value == []
    ensures ToRow(order).variety == "N/A" && ToRow(order).location == "N/A"
  {
  }

  /** `rows.filter(order => !order.fulfilled).length`. */
  function PendingCount(rows: seq<Row>): (n: nat)
    ensures n <= |rows|
    decreases |rows|
  {
    if rows == [] then 0
    else PendingCount(rows[..|rows| - 1]) + (if rows[|rows| - 1].fulfilled then 0 else 1)
  }

  /** `rows.filter(order => order.fulfilled).length`. */
  function FulfilledCount(rows: seq<Row>): (n: nat)
    ensures n <= |rows|
    decreases |rows|
  {
    if rows == [] then 0
    else FulfilledCount(rows[..|rows| - 1]) + (if rows[|rows| - 1].fulfilled then 1 else 0)
  }

  /** Every order is pending or fulfilled: the two counts add up to the total,
      so the pending count never exceeds it. */
  lemma {:induction false} PendingPlusFulfilled(rows: seq<Row>)
    ensures PendingCount(rows) + FulfilledCount(rows) == |rows|
    ensures PendingCount(rows) == |rows| <==> forall i :: 0 <= i < |rows| ==> !rows[i].fulfilled
    decreases |rows|
  {
    if rows != [] {
      var init := rows[..|rows| - 1];
      PendingPlusFulfilled(init);
      assert forall i :: 0 <= i < |init| ==> init[i] == rows[i];
    }
  }

  /** `new Set(rows.map(order => order.farmerId))`. */
  function FarmerIds(rows: seq<Row>): (ids: set<string>)
    ensures forall id :: id in ids <==> exists i :: 0 <= i < |rows| && rows[i].farmerId == id
    decreases |rows|
  {
    if rows == [] then {}
    else
      var init := rows[..|rows| - 1];
      assert forall i :: 0 <= i < |init| ==> init[i] == rows[i];
      FarmerIds(init) + {rows[|rows| - 1].farmerId}
  }

  /** The unique-farmer counter lies between 1 and the total whenever there is
      an order, and is 0 only for an empty list. */
  lemma {:induction false} UniqueFarmersBounds(rows: seq<Row>)
    ensures |FarmerIds(rows)| <= |rows|
    ensures |rows| > 0 ==> |FarmerIds(rows)| >= 1
    decreases |rows|
  {
    if rows != [] {
      UniqueFarmersBounds(rows[..|rows| - 1]);
      assert rows[|rows| - 1].farmerId in FarmerIds(rows);
    }
  }

  /** The counters shown for a response: total, pending and unique farmers;
      a missing response shows zeros. */
  lemma CountersOfResponse(data: Option<seq<TabOrder>>)
    ensures var rows := TransformOrders(data);
      |FarmerIds(rows)| <= |rows| && PendingCount(rows) <= |rows| &&
      (data.Some? ==> |rows| == |data.value|) &&
      (data.None? ==> |rows| == 0 && PendingCount(rows) == 0 && |FarmerIds(rows)| == 0)
  {
    UniqueFarmersBounds(TransformOrders(data));
  }

  /** The status and remarks cells. */
  function StatusCell(row: Row): (shown: string)
    ensures shown == "Fulfilled" <==> row.fulfilled
    ensures shown == "Pending" <==> !row.fulfilled
  {
    if row.fulfilled then "Fulfilled" else "Pending"
  }

  function RemarksCell(row: Row): (text: string)
    ensures text == "No remarks" <==> (row.remarks.None? || row.remarks.value in {"", "No remarks"})
  {
    OrElse(row.remarks, "No remarks")
  }
}
