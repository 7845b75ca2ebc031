/** The single-farmer screen: the map of expanded order cards and its toggle,
    the monthly/quarterly switch and the visibility flags, the integer parts of
    `calculateFrequencyInsights`, and the payload of the farmer edit form. */
module FarmerScreen {
  import opened JsStrings
  import opened Inventory
  import opened StableSort

  // ---------------------------------------------------------------------------
  // Expanded order cards: `{[orderId]: boolean}`

  /** `expandedOrders[id]` read as a condition: a missing key is undefined, so false. */
  predicate IsExpanded(m: map<string, bool>, id: string) {
    id in m && m[id]
  }

  /** The state set once orders arrive: every order id maps to false. */
  function AllCollapsed(ids: seq<string>): map<string, bool> {
    map id | id in ids :: false
  }

  /** `{...prev, [id]: !prev[id]}`: a missing key becomes true. */
  function Toggled(m: map<string, bool>, id: string): map<string, bool> {
    m[id := !IsExpanded(m, id)]
  }

  /** After the orders arrive every loaded order is present and collapsed, and
      nothing else is present. */
  lemma AllCollapsedMeaning(ids: seq<string>, id: string)
    ensures id in AllCollapsed(ids) <==> id in ids
    ensures !IsExpanded(AllCollapsed(ids), id)
  {
  }

  /** A toggle flips the toggled card, adds it if it was missing, and leaves
      every other entry as it was. */
  lemma ToggleLocal(m: map<string, bool>, id: string, other: string)
    requires other != id
    ensures IsExpanded(Toggled(m, id), id) == !IsExpanded(m, id)
    ensures Toggled(m, id).Keys == m.Keys + {id}
    ensures (other in Toggled(m, id)) == (other in m)
    ensures other in m ==> Toggled(m, id)[other] == m[other]
  {
  }

  /** Toggling twice restores a present entry exactly; a card that was missing
      comes back as an explicit false, so it shows collapsed again either way. */
  lemma ToggleTwice(m: map<string, bool>, id: string)
    ensures id in m ==> Toggled(Toggled(m, id), id) == m
    ensures id !in m ==> Toggled(Toggled(m, id), id) == m[id := false]
    ensures forall k :: IsExpanded(Toggled(Toggled(m, id), id), k) == IsExpanded(m, k)
  {
    if id in m {
      assert Toggled(Toggled(m, id), id) == m[id := m[id]];
    }
  }

  // ---------------------------------------------------------------------------
  // Monthly / quarterly switch

  datatype Period = Monthly | Quarterly

  function TogglePeriod(p: Period): (q: Period)
    ensures q != p
  {
    if p == Monthly then Quarterly else Monthly
  }

  /** Switching twice returns to the period shown before. */
  lemma TogglePeriodInvolution(p: Period)
    ensures TogglePeriod(TogglePeriod(p)) == p
  {
  }

  // ---------------------------------------------------------------------------
  // calculateFrequencyInsights

  datatype FrequencyData = FrequencyData(period: string, count: int, totalQuantity: int)

  datatype FrequencyResponse = FrequencyResponse(
    orderCount: int,
    monthlyFrequency: seq<FrequencyData>,
    quarterlyFrequency: seq<FrequencyData>)

  datatype FrequencyInsights = FrequencyInsights(
    highestMonthly: Option<FrequencyData>,
    highestQuarterly: Option<FrequencyData>,
    highestQuantityMonthly: Option<FrequencyData>,
    highestQuantityQuarterly: Option<FrequencyData>,
    totalQuantity: int,
    avgQuantityPerOrder: int,
    growth: Option<(int, int)>)

  /** Sort key of `(a, b) => b.count - a.count`. */
  function NegCount(f: FrequencyData): int { -f.count }

  /** Sort key of `(a, b) => b.totalQuantity - a.totalQuantity`. */
  function NegQuantity(f: FrequencyData): int { -f.totalQuantity }

  function TotalQuantityOf(f: FrequencyData): int { f.totalQuantity }

  /** `[...s].sort(descending by key)[0]`; undefined (None) for an empty list. */
  function Highest(s: seq<FrequencyData>, negKey: FrequencyData -> int): (h: Option<FrequencyData>)
    ensures h.Some? <==> |s| > 0
  {
    if |s| == 0 then None else Some(Sort(s, negKey)[0])
  }

  /** The period with the highest order count is the earliest period whose
      count is at least every other period's count. */
  lemma HighestCountMeaning(s: seq<FrequencyData>) returns (i: int)
    requires |s| > 0
    ensures 0 <= i < |s| && Highest(s, NegCount) == Some(s[i])
    ensures forall j :: 0 <= j < |s| ==> s[j].count <= s[i].count
    ensures forall j :: 0 <= j < i ==> s[j].count < s[i].count
  {
    i := SortHead(s, NegCount);
    assert forall j :: 0 <= j < |s| ==> NegCount(s[i]) <= NegCount(s[j]);
    assert forall j :: 0 <= j < i ==> NegCount(s[j]) > NegCount(s[i]);
  }

  /** The period with the highest quantity is the earliest period whose
      quantity is at least every other period's quantity. */
  lemma HighestQuantityMeaning(s: seq<FrequencyData>) returns (i: int)
    requires |s| > 0
    ensures 0 <= i < |s| && Highest(s, NegQuantity) == Some(s[i])
    ensures forall j :: 0 <= j < |s| ==> s[j].totalQuantity <= s[i].totalQuantity
    ensures forall j :: 0 <= j < i ==> s[j].totalQuantity < s[i].totalQuantity
  {
    i := SortHead(s, NegQuantity);
    assert forall j :: 0 <= j < |s| ==> NegQuantity(s[i]) <= NegQuantity(s[j]);
    assert forall j :: 0 <= j < i ==> NegQuantity(s[j]) > NegQuantity(s[i]);
  }

  /** `Math.round(t / n)` for a positive n: the integer nearest to t / n, halves
      rounded up. */
  function RoundDiv(t: int, n: int): int
    requires n > 0
  {
    (2 * t + n) / (2 * n)
  }

  /** Euclidean division brackets m between two consecutive multiples of d. */
  lemma DivBounds(m: int, d: int)
    requires d > 0
    ensures d * (m / d) <= m < d * (m / d) + d
  {
  }

  /** A positive d times a k of at least 1 is at least d. */
  lemma MulAtLeast(d: int, k: int)
    requires d > 0 && k >= 1
    ensures d * k >= d
  {
    assert d * k == d + d * (k - 1);
  }

  /** Only one multiple of d lies in the d-wide window below m. */
  lemma UniqueQuotient(m: int, d: int, q: int, r: int)
    requires d > 0
    requires d * q <= m < d * q + d
    requires d * r <= m < d * r + d
    ensures q == r
  {
    if q < r {
      assert d * r == d * q + d * (r - q);
      MulAtLeast(d, r - q);
    } else if r < q {
      assert d * q == d * r + d * (q - r);
      MulAtLeast(d, q - r);
    }
  }

  /** The bounds of the rounding, restated over m = 2t + n and d = 2n. */
  lemma RoundBoundsScaled(t: int, n: int, r: int)
    requires n > 0
    ensures (n * (2 * r - 1) <= 2 * t < n * (2 * r + 1)) <==>
            ((2 * n) * r <= 2 * t + n < (2 * n) * r + 2 * n)
  {
    assert n * (2 * r - 1) == (2 * n) * r - n;
    assert n * (2 * r + 1) == (2 * n) * r + n;
  }

  /** RoundDiv(t, n) is the one integer r with r - 1/2 <= t/n < r + 1/2. */
  lemma RoundDivNearest(t: int, n: int, r: int)
    requires n > 0
    ensures var q := RoundDiv(t, n); n * (2 * q - 1) <= 2 * t < n * (2 * q + 1)
    ensures n * (2 * r - 1) <= 2 * t < n * (2 * r + 1) ==> r == RoundDiv(t, n)
  {
    var q := RoundDiv(t, n);
    DivBounds(2 * t + n, 2 * n);
    RoundBoundsScaled(t, n, q);
    RoundBoundsScaled(t, n, r);
    if n * (2 * r - 1) <= 2 * t < n * (2 * r + 1) {
      UniqueQuotient(2 * t + n, 2 * n, q, r);
    }
  }

  /** `orderCount > 0 ? Math.round(totalQuantity / orderCount) : 0`. */
  function AvgPerOrder(totalQuantity: int, orderCount: int): int {
    if orderCount > 0 then RoundDiv(totalQuantity, orderCount) else 0
  }

  /** The growth rate as numerator and denominator: `(current.count -
      previous.count) / previous.count`, times 100, is the percentage shown;
      null without two periods or when the previous count is not positive. */
  function Growth(monthly: seq<FrequencyData>): (g: Option<(int, int)>)
    ensures g.Some? <==> |monthly| >= 2 && monthly[|monthly| - 2].count > 0
  {
    if |monthly| >= 2 then
      var current, previous := monthly[|monthly| - 1], monthly[|monthly| - 2];
      if previous.count > 0 then Some((current.count - previous.count, previous.count)) else None
    else None
  }

  /** The screen reports an increase exactly when the last month has more
      orders than the month before, and a decrease otherwise. */
  lemma GrowthDirection(monthly: seq<FrequencyData>)
    requires Growth(monthly).Some?
    ensures Growth(monthly).value.1 > 0
    ensures Growth(monthly).value.0 > 0 <==> monthly[|monthly| - 1].count > monthly[|monthly| - 2].count
  {
  }

  /** The insights, or null (None) before the frequency data has arrived. */
  function CalculateFrequencyInsights(data: Option<FrequencyResponse>): (r: Option<FrequencyInsights>)
    ensures r.Some? <==> data.Some?
  {
    match data
    case None => None
    case Some(d) =>
      var total := SumOf(d.monthlyFrequency, TotalQuantityOf);
      Some(FrequencyInsights(
        Highest(d.monthlyFrequency, NegCount),
        Highest(d.quarterlyFrequency, NegCount),
        Highest(d.monthlyFrequency, NegQuantity),
        Highest(d.quarterlyFrequency, NegQuantity),
        total,
        AvgPerOrder(total, d.orderCount),
        Growth(d.monthlyFrequency)))
  }

  /** The average is 0 without orders and otherwise the integer nearest to the
      monthly total over the order count; the total is additive over months. */
  lemma InsightsTotals(d: FrequencyResponse, later: seq<FrequencyData>)
    ensures var ins := CalculateFrequencyInsights(Some(d)).value;
      (d.orderCount <= 0 ==> ins.avgQuantityPerOrder == 0) &&
      (d.orderCount > 0 ==>
        d.orderCount * (2 * ins.avgQuantityPerOrder - 1) <= 2 * ins.totalQuantity < d.orderCount * (2 * ins.avgQuantityPerOrder + 1))
    ensures var ins2 := CalculateFrequencyInsights(Some(d.(monthlyFrequency := d.monthlyFrequency + later))).value;
      ins2.totalQuantity == SumOf(d.monthlyFrequency, TotalQuantityOf) + SumOf(later, TotalQuantityOf)
  {
    if d.orderCount > 0 {
      var total := SumOf(d.monthlyFrequency, TotalQuantityOf);
      RoundDivNearest(total, d.orderCount, 0);
    }
    SumOfAppend(d.monthlyFrequency, later, TotalQuantityOf);
  }

  // ---------------------------------------------------------------------------
  // Edit form

  datatype FarmerTextField = Name | MobileNumber | Address | ImageUrl

  /** `handleInputChange(e, field)` for the four text boxes of the form. */
  function WithText(f: Farmer, field: FarmerTextField, value: string): Farmer {
    match field
    case Name => f.(name := value)
    case MobileNumber => f.(mobileNumber := value)
    case Address => f.(address := value)
    case ImageUrl => f.(imageUrl := value)
  }

  /** `handleCheckboxChange(e, "isVerified")`. */
  function WithVerified(f: Farmer, checked: bool): Farmer {
    f.(isVerified := checked)
  }

  datatype FarmerUpdate = FarmerUpdate(name: string, address: string, mobileNumber: string, imageUrl: string, isVerified: bool)

  /** `updateData`: only the five editable fields are sent. */
  function UpdatePayload(f: Farmer): FarmerUpdate {
    FarmerUpdate(f.name, f.address, f.mobileNumber, f.imageUrl, f.isVerified)
  }

  function PayloadText(p: FarmerUpdate, field: FarmerTextField): string {
    match field
    case Name => p.name
    case MobileNumber => p.mobileNumber
    case Address => p.address
    case ImageUrl => p.imageUrl
  }

  /** The form has no `noValidate`, so it is submitted only when its
      `required` name, mobile number and address boxes are not empty. */
  predicate FormValid(f: Farmer) {
    f.name != "" && f.mobileNumber != "" && f.address != ""
  }

  /** A submitted payload carries a non-empty name, mobile number and address.
      Emptying a required box blocks the submit; filling one makes validity
      depend on the other two; the image URL and the check box do not matter. */
  lemma FormValidAfterEdit(f: Farmer, field: FarmerTextField, value: string, checked: bool)
    ensures FormValid(f) ==>
      (UpdatePayload(f).name != "" && UpdatePayload(f).mobileNumber != "" && UpdatePayload(f).address != "")
    ensures field != ImageUrl && value == "" ==> !FormValid(WithText(f, field, value))
    ensures field == Name && value != "" ==> (FormValid(WithText(f, field, value)) <==> f.mobileNumber != "" && f.address != "")
    ensures field == ImageUrl ==> FormValid(WithText(f, field, value)) == FormValid(f)
    ensures FormValid(WithVerified(f, checked)) == FormValid(f)
  {
  }

  /** An edit reaches the payload in its own field and nowhere else, and the
      payload depends on nothing but the five editable fields: the id, the
      farmer id, the role and the timestamps are never sent. */
  lemma PayloadAfterEdit(f: Farmer, g: Farmer, field: FarmerTextField, other: FarmerTextField, value: string, checked: bool)
    requires other != field
    ensures PayloadText(UpdatePayload(WithText(f, field, value)), field) == value
    ensures PayloadText(UpdatePayload(WithText(f, field, value)), other) == PayloadText(UpdatePayload(f), other)
    ensures UpdatePayload(WithText(f, field, value)).isVerified == f.isVerified
    ensures UpdatePayload(WithVerified(f, checked)) == UpdatePayload(f).(isVerified := checked)
    ensures (g.name == f.name && g.address == f.address && g.mobileNumber == f.mobileNumber &&
             g.imageUrl == f.imageUrl && g.isVerified == f.isVerified) ==> UpdatePayload(g) == UpdatePayload(f)
  {
  }

  // ---------------------------------------------------------------------------
  // The screen's state

  class FarmerScreenState {
    var editedFarmer: Option<Farmer>
    var isEditModalOpen: bool
    var showOrders: bool
    var showOrderFrequency: bool
    var expandedOrders: map<string, bool>
    var frequencyPeriod: Period

    constructor()
      ensures editedFarmer.None? && !isEditModalOpen && !showOrders && !showOrderFrequency
      ensures expandedOrders == map[] && frequencyPeriod == Monthly
    {
      editedFarmer := None;
      isEditModalOpen := false;
      showOrders := false;
      showOrderFrequency := false;
      expandedOrders := map[];
      frequencyPeriod := Monthly;
    }

    /** The effect run when the orders arrive: every order id is set to false
        one by one. */
    method InitExpandedState(orderIds: Option<seq<string>>)
      modifies this
      ensures orderIds.Some? ==> expandedOrders == AllCollapsed(orderIds.value)
      ensures orderIds.None? ==> expandedOrders == old(expandedOrders)
      ensures editedFarmer == old(editedFarmer) && isEditModalOpen == old(isEditModalOpen)
      ensures showOrders == old(showOrders) && showOrderFrequency == old(showOrderFrequency)
      ensures frequencyPeriod == old(frequencyPeriod)
    {
      if orderIds.Some? {
        var ids := orderIds.value;
        var m: map<string, bool> := map[];
        for i := 0 to |ids|
          invariant m == AllCollapsed(ids[..i])
        {
          assert ids[..i + 1] == ids[..i] + [ids[i]];
          assert forall id :: id in ids[..i + 1] <==> id in ids[..i] || id == ids[i];
          m := m[ids[i] := false];
        }
        assert ids[..|ids|] == ids;
        expandedOrders := m;
      }
    }

    method ToggleOrderExpansion(id: string)
      modifies this
      ensures expandedOrders == Toggled(old(expandedOrders), id)
      ensures editedFarmer == old(editedFarmer) && isEditModalOpen == old(isEditModalOpen)
      ensures showOrders == old(showOrders) && showOrderFrequency == old(showOrderFrequency)
      ensures frequencyPeriod == old(frequencyPeriod)
    {
      expandedOrders := Toggled(expandedOrders, id);
    }

    method ToggleFrequencyPeriod()
      modifies this
      ensures frequencyPeriod == TogglePeriod(old(frequencyPeriod))
      ensures editedFarmer == old(editedFarmer) && isEditModalOpen == old(isEditModalOpen)
      ensures showOrders == old(showOrders) && showOrderFrequency == old(showOrderFrequency)
      ensures expandedOrders == old(expandedOrders)
    {
      frequencyPeriod := TogglePeriod(frequencyPeriod);
    }

    /** `handleViewOrders`: shows or hides the order list (showing it also
        refetches the orders, which is not part of this model). */
    method ViewOrders()
      modifies this
      ensures showOrders == !old(showOrders)
      ensures editedFarmer == old(editedFarmer) && isEditModalOpen == old(isEditModalOpen)
      ensures showOrderFrequency == old(showOrderFrequency) && expandedOrders == old(expandedOrders)
      ensures frequencyPeriod == old(frequencyPeriod)
    {
      if showOrders {
        showOrders := false;
      } else {
        showOrders := true;
      }
    }

    /** `handleViewOrderFrequency`: shows or hides the frequency panel. */
    method ViewOrderFrequency()
      modifies this
      ensures showOrderFrequency == !old(showOrderFrequency)
      ensures editedFarmer == old(editedFarmer) && isEditModalOpen == old(isEditModalOpen)
      ensures showOrders == old(showOrders) && expandedOrders == old(expandedOrders)
      ensures frequencyPeriod == old(frequencyPeriod)
    {
      if showOrderFrequency {
        showOrderFrequency := false;
      } else {
        showOrderFrequency := true;
      }
    }

    /** The form starts from a copy of the farmer shown. */
    method OpenEditModal(farmerInfo: Farmer)
      modifies this
      ensures editedFarmer == Some(farmerInfo) && isEditModalOpen
      ensures showOrders == old(showOrders) && showOrderFrequency == old(showOrderFrequency)
      ensures expandedOrders == old(expandedOrders) && frequencyPeriod == old(frequencyPeriod)
    {
      editedFarmer := Some(farmerInfo);
      isEditModalOpen := true;
    }

    method ChangeText(field: FarmerTextField, value: string)
      modifies this
      ensures editedFarmer == (if old(editedFarmer).Some? then Some(WithText(old(editedFarmer).value, field, value)) else None)
      ensures isEditModalOpen == old(isEditModalOpen) && showOrders == old(showOrders)
      ensures showOrderFrequency == old(showOrderFrequency) && expandedOrders == old(expandedOrders)
      ensures frequencyPeriod == old(frequencyPeriod)
    {
      if editedFarmer.Some? {
        editedFarmer := Some(WithText(editedFarmer.value, field, value));
      }
    }

    method ChangeVerified(checked: bool)
      modifies this
      ensures editedFarmer == (if old(editedFarmer).Some? then Some(WithVerified(old(editedFarmer).value, checked)) else None)
      ensures isEditModalOpen == old(isEditModalOpen) && showOrders == old(showOrders)
      ensures showOrderFrequency == old(showOrderFrequency) && expandedOrders == old(expandedOrders)
      ensures frequencyPeriod == old(frequencyPeriod)
    {
      if editedFarmer.Some? {
        editedFarmer := Some(WithVerified(editedFarmer.value, checked));
      }
    }

    /** Submitting the form: the browser runs `handleSubmitEdit` only when the
        form's `required` boxes are filled, and the handler then sends its
        request body; otherwise nothing is sent (None). */
    method SubmitEdit() returns (payload: Option<FarmerUpdate>)
      ensures payload.Some? <==> editedFarmer.Some? && FormValid(editedFarmer.value)
      ensures payload.Some? ==> payload == Some(UpdatePayload(editedFarmer.value))
    {
      if editedFarmer.Some? && FormValid(editedFarmer.value) {
        payload := Some(UpdatePayload(editedFarmer.value));
      } else {
        payload := None;
      }
    }
  }
}
