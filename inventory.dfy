/** The records the dashboard receives from its backend (incoming and outgoing
    orders, farmers) and the nested `reduce` totals computed over them. */
module Inventory {

  // ---------------------------------------------------------------------------
  // Left-to-right sum, the shape of `xs.reduce((acc, x) => acc + f(x), 0)`

  function SumOf<T>(xs: seq<T>, f: T -> int): int
    decreases |xs|
  {
    if xs == [] then 0 else SumOf(xs[..|xs| - 1], f) + f(xs[|xs| - 1])
  }

  /** Summing a concatenation sums each part. */
  lemma {:induction false} SumOfAppend<T>(xs: seq<T>, ys: seq<T>, f: T -> int)
    ensures SumOf(xs + ys, f) == SumOf(xs, f) + SumOf(ys, f)
    decreases |ys|
  {
    if ys == [] {
      assert xs + ys == xs;
    } else {
      var ys' := ys[..|ys| - 1];
      assert (xs + ys)[..|xs + ys| - 1] == xs + ys';
      SumOfAppend(xs, ys', f);
    }
  }

  lemma SumOfSingle<T>(x: T, f: T -> int)
    ensures SumOf([x], f) == f(x)
  {
    assert [x][..0] == [];
  }

  /** Two sums agree when their terms agree position by position. */
  lemma {:induction false} SumOfCongruent<T, U>(xs: seq<T>, f: T -> int, ys: seq<U>, g: U -> int)
    requires |xs| == |ys|
    requires forall i :: 0 <= i < |xs| ==> f(xs[i]) == g(ys[i])
    ensures SumOf(xs, f) == SumOf(ys, g)
    decreases |xs|
  {
    if xs != [] {
      SumOfCongruent(xs[..|xs| - 1], f, ys[..|ys| - 1], g);
    }
  }

  /** Summing a difference of terms is the difference of the sums. */
  lemma {:induction false} SumOfDifference<T>(xs: seq<T>, f: T -> int, g: T -> int, h: T -> int)
    requires forall i :: 0 <= i < |xs| ==> h(xs[i]) == f(xs[i]) - g(xs[i])
    ensures SumOf(xs, h) == SumOf(xs, f) - SumOf(xs, g)
    decreases |xs|
  {
    if xs != [] {
      SumOfDifference(xs[..|xs| - 1], f, g, h);
    }
  }

  lemma {:induction false} SumOfNonNegative<T>(xs: seq<T>, f: T -> int)
    requires forall i :: 0 <= i < |xs| ==> f(xs[i]) >= 0
    ensures SumOf(xs, f) >= 0
    decreases |xs|
  {
    if xs != [] {
      SumOfNonNegative(xs[..|xs| - 1], f);
    }
  }

  /** Changing one term by delta changes the sum by delta. */
  lemma {:induction false} SumOfUpdate<T>(xs: seq<T>, k: int, x: T, f: T -> int)
    requires 0 <= k < |xs|
    ensures SumOf(xs[k := x], f) == SumOf(xs, f) - f(xs[k]) + f(x)
    decreases |xs|
  {
    var n := |xs| - 1;
    if k < n {
      assert xs[k := x][..n] == xs[..n][k := x];
      SumOfUpdate(xs[..n], k, x, f);
    } else {
      assert xs[k := x][..n] == xs[..n];
    }
  }

  // ---------------------------------------------------------------------------
  // Incoming orders (receipts of produce into storage)

  datatype Voucher = Voucher(voucherType: string, voucherNumber: int)

  datatype Quantity = Quantity(initialQuantity: int, currentQuantity: int)

  datatype BagSize = BagSize(quantity: Quantity, size: string)

  datatype OrderDetail = OrderDetail(variety: string, bagSizes: seq<BagSize>, location: string)

  datatype IncomingOrder = IncomingOrder(
    id: string,
    coldStorageId: string,
    farmerId: string,
    dateOfSubmission: string,
    fulfilled: bool,
    remarks: string,
    orderDetails: seq<OrderDetail>,
    voucher: Voucher)

  function BagInitial(b: BagSize): int { b.quantity.initialQuantity }
  function BagCurrent(b: BagSize): int { b.quantity.currentQuantity }
  /** The "Removed" column of a receipt row: initial minus current. */
  function BagRemoved(b: BagSize): int { b.quantity.initialQuantity - b.quantity.currentQuantity }

  function DetailInitial(d: OrderDetail): int { SumOf(d.bagSizes, BagInitial) }
  function DetailCurrent(d: OrderDetail): int { SumOf(d.bagSizes, BagCurrent) }
  function DetailRemoved(d: OrderDetail): int { SumOf(d.bagSizes, BagRemoved) }

  /** Sum over details of the sum over bags of the initial quantity. */
  function TotalInitial(details: seq<OrderDetail>): int { SumOf(details, DetailInitial) }
  function TotalCurrent(details: seq<OrderDetail>): int { SumOf(details, DetailCurrent) }
  function TotalRemoved(details: seq<OrderDetail>): int { SumOf(details, DetailRemoved) }

  // ---------------------------------------------------------------------------
  // Outgoing orders (deliveries out of storage)

  datatype IncomingBagSize = IncomingBagSize(size: string, currentQuantity: int, initialQuantity: int, id: string)

  datatype IncomingOrderRef = IncomingOrderRef(
    id: string,
    location: string,
    voucher: Voucher,
    incomingBagSizes: seq<IncomingBagSize>)

  datatype RemovedBag = RemovedBag(size: string, quantityRemoved: int)

  datatype OutgoingDetail = OutgoingDetail(variety: string, incomingOrder: IncomingOrderRef, bagSizes: seq<RemovedBag>)

  datatype OutgoingOrder = OutgoingOrder(
    id: string,
    coldStorageId: string,
    farmerId: string,
    dateOfExtraction: string,
    remarks: string,
    orderDetails: seq<OutgoingDetail>,
    voucher: Voucher)

  function BagExtracted(b: RemovedBag): int { b.quantityRemoved }
  function DetailExtracted(d: OutgoingDetail): int { SumOf(d.bagSizes, BagExtracted) }

  /** Sum over details of the sum over bags of quantityRemoved. */
  function TotalExtracted(details: seq<OutgoingDetail>): int { SumOf(details, DetailExtracted) }

  // ---------------------------------------------------------------------------
  // Farmers

  datatype Farmer = Farmer(
    id: string,
    name: string,
    address: string,
    mobileNumber: string,
    role: string,
    imageUrl: string,
    registeredStoreAdmins: seq<string>,
    farmerId: string,
    isVerified: bool,
    createdAt: string,
    updatedAt: string)
}
