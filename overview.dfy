/** The cold-storage overview tab: per-variety stock rows for the bar chart,
    the per-farmer rows of the top-farmers chart, the size distribution built in
    a Map, the insight loops (top variety, dominant size, a farmer's top bag
    type) and the "top two" and "lowest" size lines. */
module Overview {
  import opened JsStrings
  import opened Inventory
  import opened StableSort
  import opened RunningMax
  import JsObjects

  datatype SizeStock = SizeStock(size: string, initialQuantity: int, currentQuantity: int)

  datatype VarietyStock = VarietyStock(variety: string, sizes: seq<SizeStock>)

  /** A chart field: the variety or farmer name, or a count. */
  datatype Field = Text(text: string) | Number(number: int)

  function SizeCurrent(s: SizeStock): int { s.currentQuantity }

  /** Σ currentQuantity over a variety's sizes. */
  function VarietyTotal(v: VarietyStock): int { SumOf(v.sizes, SizeCurrent) }

  // ---------------------------------------------------------------------------
  // Objects built by spreading key/value entries

  /** `entries.reduce((acc, [k, v]) => ({...acc, [k]: v}), {})`. */
  function ObjectOf(entries: seq<(string, int)>): map<string, int>
    decreases |entries|
  {
    if entries == [] then map[]
    else
      var last := entries[|entries| - 1];
      ObjectOf(entries[..|entries| - 1])[last.0 := last.1]
  }

  /** The object has exactly the keys of the entries, and each key holds the
      value of its last entry. */
  lemma {:induction false} ObjectOfLookup(entries: seq<(string, int)>, k: string)
    ensures k in ObjectOf(entries) <==> exists j :: 0 <= j < |entries| && entries[j].0 == k
    ensures forall j :: JsObjects.LastWithKey(entries, k, j) ==> ObjectOf(entries)[k] == entries[j].1
    decreases |entries|
  {
    if entries != [] {
      var init := entries[..|entries| - 1];
      ObjectOfLookup(init, k);
      forall j | JsObjects.LastWithKey(entries, k, j) ensures ObjectOf(entries)[k] == entries[j].1 {
        if j < |entries| - 1 {
          assert JsObjects.LastWithKey(init, k, j);
        }
      }
      if k in ObjectOf(init) {
        var j :| 0 <= j < |init| && init[j].0 == k;
        assert entries[j].0 == k;
      }
    }
  }

  function SizeEntries(sizes: seq<SizeStock>): seq<(string, int)> {
    seq(|sizes|, i requires 0 <= i < |sizes| => (sizes[i].size, sizes[i].currentQuantity))
  }

  // ---------------------------------------------------------------------------
  // processStockData

  /** `{name: variety, total, ...sizeFields}`: size fields come last, so a size
      called "name" or "total" overrides that field. */
  datatype ChartRow = ChartRow(name: Field, total: int, sizeFields: map<string, int>)

  function StockRow(v: VarietyStock): ChartRow {
    var fields := ObjectOf(SizeEntries(v.sizes));
    ChartRow(
      if "name" in fields then Number(fields["name"]) else Text(v.variety),
      if "total" in fields then fields["total"] else VarietyTotal(v),
      fields)
  }

  function ProcessStockData(summary: Option<seq<VarietyStock>>): seq<ChartRow> {
    match summary
    case None => []
    case Some(stock) => seq(|stock|, i requires 0 <= i < |stock| => StockRow(stock[i]))
  }

  function RowTotal(r: ChartRow): int { r.total }

  /** One row per variety in order (none without data). A variety without sizes
      called "name" or "total" gets its own name and Σ currentQuantity; each
      size field holds the currentQuantity of the last entry of that size. */
  lemma ProcessStockDataRows(summary: Option<seq<VarietyStock>>, i: int, k: string, j: int)
    ensures summary.None? ==> ProcessStockData(summary) == []
    ensures summary.Some? ==> |ProcessStockData(summary)| == |summary.value|
    ensures summary.Some? && 0 <= i < |summary.value| ==>
      var v := summary.value[i];
      var row := ProcessStockData(summary)[i];
      ((forall s :: 0 <= s < |v.sizes| ==> v.sizes[s].size != "name") ==> row.name == Text(v.variety)) &&
      ((forall s :: 0 <= s < |v.sizes| ==> v.sizes[s].size != "total") ==> row.total == SumOf(v.sizes, SizeCurrent)) &&
      (JsObjects.LastWithKey(SizeEntries(v.sizes), k, j) ==> k in row.sizeFields && row.sizeFields[k] == v.sizes[j].currentQuantity)
  {
    if summary.Some? && 0 <= i < |summary.value| {
      var v := summary.value[i];
      var es := SizeEntries(v.sizes);
      ObjectOfLookup(es, k);
      ObjectOfLookup(es, "name");
      ObjectOfLookup(es, "total");
    }
  }

  /** A size called "total" replaces the variety's total: a variety with 5 bags
      of "Seed" and 2 bags of size "total" charts a total of 2, not 7. */
  lemma SizeNamedTotalOverrides()
    ensures StockRow(VarietyStock("Jyoti", [SizeStock("Seed", 5, 5), SizeStock("total", 2, 2)])).total == 2
  {
  }

  // ---------------------------------------------------------------------------
  // processTopFarmersData

  /** A top farmer as the response lists it; bagSummary holds the members of
      its JSON object in the order they appear in the text. */
  datatype TopFarmer = TopFarmer(id: string, totalBags: int, bagSummary: seq<(string, int)>,
                                 farmerId: string, farmerName: string)

  /** `Object.entries(farmer.bagSummary)` of the object `JSON.parse` builds. */
  function BagEntries(f: TopFarmer): seq<(string, int)> {
    JsObjects.Entries(JsObjects.FromEntries(f.bagSummary))
  }

  /** `{name: farmerName, totalBags, ...bagSummary}`. */
  datatype FarmerBar = FarmerBar(name: Field, totalBags: int, bagFields: map<string, int>)

  function FarmerRow(f: TopFarmer): FarmerBar {
    var fields := ObjectOf(f.bagSummary);
    FarmerBar(
      if "name" in fields then Number(fields["name"]) else Text(f.farmerName),
      if "totalBags" in fields then fields["totalBags"] else f.totalBags,
      fields)
  }

  function ProcessTopFarmersData(topFarmers: Option<seq<TopFarmer>>): seq<FarmerBar> {
    match topFarmers
    case None => []
    case Some(fs) => seq(|fs|, i requires 0 <= i < |fs| => FarmerRow(fs[i]))
  }

  /** One bar per farmer in order (none without data); the farmer's name and
      total unless a bag type of that name overrides them; every bag type of the
      summary is a field holding its count. */
  lemma ProcessTopFarmersDataRows(topFarmers: Option<seq<TopFarmer>>, i: int, k: string, j: int)
    ensures topFarmers.None? ==> ProcessTopFarmersData(topFarmers) == []
    ensures topFarmers.Some? ==> |ProcessTopFarmersData(topFarmers)| == |topFarmers.value|
    ensures topFarmers.Some? && 0 <= i < |topFarmers.value| ==>
      var f := topFarmers.value[i];
      var bar := ProcessTopFarmersData(topFarmers)[i];
      ((forall s :: 0 <= s < |f.bagSummary| ==> f.bagSummary[s].0 != "name") ==> bar.name == Text(f.farmerName)) &&
      ((forall s :: 0 <= s < |f.bagSummary| ==> f.bagSummary[s].0 != "totalBags") ==> bar.totalBags == f.totalBags) &&
      (JsObjects.LastWithKey(f.bagSummary, k, j) ==> k in bar.bagFields && bar.bagFields[k] == f.bagSummary[j].1)
  {
    if topFarmers.Some? && 0 <= i < |topFarmers.value| {
      var f := topFarmers.value[i];
      ObjectOfLookup(f.bagSummary, k);
      ObjectOfLookup(f.bagSummary, "name");
      ObjectOfLookup(f.bagSummary, "totalBags");
    }
  }

  // ---------------------------------------------------------------------------
  // createSizeDistributionData

  /** `{name, value}` entries of the pie chart. */
  datatype SizeSlice = SizeSlice(name: string, value: int)

  function SliceValue(s: SizeSlice): int { s.value }

  /** The Map being filled: its keys in insertion order and its entries. */
  datatype Tally = Tally(keys: seq<string>, values: map<string, int>)

  ghost predicate TallyValid(t: Tally) {
    (forall i, j :: 0 <= i < j < |t.keys| ==> t.keys[i] != t.keys[j]) &&
    (forall k :: k in t.values <==> k in t.keys)
  }

  /** One `sizeMap.set(size, (sizeMap.get(size) || 0) + currentQuantity)`; a
      stored 0 and a missing key both read as 0. */
  function AddTo(t: Tally, e: SizeStock): Tally {
    var current := if e.size in t.values then t.values[e.size] else 0;
    Tally(if e.size in t.values then t.keys else t.keys + [e.size],
          t.values[e.size := current + e.currentQuantity])
  }

  /** Every size of every variety, in visiting order. */
  function Flatten(stock: seq<VarietyStock>): seq<SizeStock>
    decreases |stock|
  {
    if stock == [] then [] else Flatten(stock[..|stock| - 1]) + stock[|stock| - 1].sizes
  }

  /** The Map after visiting es in order. */
  function SizeTally(es: seq<SizeStock>): Tally
    decreases |es|
  {
    if es == [] then Tally([], map[]) else AddTo(SizeTally(es[..|es| - 1]), es[|es| - 1])
  }

  /** `Array.from(sizeMap.entries()).map(([name, value]) => ({name, value}))`. */
  function Slices(t: Tally): seq<SizeSlice>
    requires TallyValid(t)
  {
    seq(|t.keys|, i requires 0 <= i < |t.keys| => SizeSlice(t.keys[i], t.values[t.keys[i]]))
  }

  /** Independent reference: Σ currentQuantity over the entries of size k. */
  function SizeTotal(es: seq<SizeStock>, k: string): int
    decreases |es|
  {
    if es == [] then 0
    else SizeTotal(es[..|es| - 1], k) + (if es[|es| - 1].size == k then es[|es| - 1].currentQuantity else 0)
  }

  /** Some entry of es has size k. */
  predicate HasSize(es: seq<SizeStock>, k: string) {
    exists j :: 0 <= j < |es| && es[j].size == k
  }

  /** The Map holds each size once, exactly the sizes that occur, each with the
      sum of its quantities across all varieties. */
  lemma {:induction false} SizeTallyMeaning(es: seq<SizeStock>)
    ensures TallyValid(SizeTally(es))
    ensures forall k :: k in SizeTally(es).values <==> HasSize(es, k)
    ensures forall k :: k in SizeTally(es).values ==> SizeTally(es).values[k] == SizeTotal(es, k)
    ensures forall k :: k !in SizeTally(es).values ==> SizeTotal(es, k) == 0
  {
    SizeTallyKeys(es);
    SizeTallyTotals(es);
  }

  /** The Map's keys are distinct and are exactly the sizes that occur. */
  lemma {:induction false} SizeTallyKeys(es: seq<SizeStock>)
    ensures TallyValid(SizeTally(es))
    ensures forall k :: k in SizeTally(es).values <==> HasSize(es, k)
    decreases |es|
  {
    if es != [] {
      var init, e := es[..|es| - 1], es[|es| - 1];
      SizeTallyKeys(init);
      AddToValid(SizeTally(init), e);
      forall k | HasSize(es, k) ensures k in SizeTally(es).values {
        var j :| 0 <= j < |es| && es[j].size == k;
        if j < |es| - 1 {
          assert init[j].size == k;
        }
      }
      forall k | k in SizeTally(es).values ensures HasSize(es, k) {
        if k != e.size {
          var j :| 0 <= j < |init| && init[j].size == k;
          assert es[j].size == k;
        } else {
          assert es[|es| - 1].size == k;
        }
      }
    }
  }

  /** Each size's value in the Map is the sum of its quantities; a size absent
      from the Map sums to 0. */
  lemma {:induction false} SizeTallyTotals(es: seq<SizeStock>)
    ensures forall k :: k in SizeTally(es).values ==> SizeTally(es).values[k] == SizeTotal(es, k)
    ensures forall k :: k !in SizeTally(es).values ==> SizeTotal(es, k) == 0
    decreases |es|
  {
    if es != [] {
      SizeTallyTotals(es[..|es| - 1]);
    }
  }

  /** A single insertion keeps the keys distinct and in step with the entries. */
  lemma AddToValid(t: Tally, e: SizeStock)
    requires TallyValid(t)
    ensures TallyValid(AddTo(t, e))
  {
    if e.size !in t.values {
      assert e.size !in t.keys;
      assert AddTo(t, e).keys == t.keys + [e.size];
    }
  }

  /** One insertion changes the chart entries by appending a new size or by
      raising the value of the existing one. */
  lemma AddToSlices(t: Tally, e: SizeStock)
    requires TallyValid(t)
    ensures TallyValid(AddTo(t, e))
    ensures SumOf(Slices(AddTo(t, e)), SliceValue) == SumOf(Slices(t), SliceValue) + e.currentQuantity
  {
    if e.size in t.values {
      var idx :| 0 <= idx < |t.keys| && t.keys[idx] == e.size;
      AddToExistingSlices(t, e, idx);
    } else {
      AddToNewSlices(t, e);
    }
  }

  /** Adding to a size already present raises its entry in place. */
  lemma AddToExistingSlices(t: Tally, e: SizeStock, idx: int)
    requires TallyValid(t) && 0 <= idx < |t.keys| && t.keys[idx] == e.size
    ensures TallyValid(AddTo(t, e))
    ensures SumOf(Slices(AddTo(t, e)), SliceValue) == SumOf(Slices(t), SliceValue) + e.currentQuantity
  {
    var raised := SizeSlice(e.size, t.values[e.size] + e.currentQuantity);
    assert Slices(AddTo(t, e)) == Slices(t)[idx := raised];
    SumOfUpdate(Slices(t), idx, raised, SliceValue);
  }

  /** Adding a new size appends its entry. */
  lemma AddToNewSlices(t: Tally, e: SizeStock)
    requires TallyValid(t) && e.size !in t.values
    ensures TallyValid(AddTo(t, e))
    ensures SumOf(Slices(AddTo(t, e)), SliceValue) == SumOf(Slices(t), SliceValue) + e.currentQuantity
  {
    var t', added := AddTo(t, e), SizeSlice(e.size, e.currentQuantity);
    assert t'.keys == t.keys + [e.size];
    assert e.size !in t.keys;
    assert TallyValid(t');
    assert Slices(t')[|t.keys|] == added;
    forall i | 0 <= i < |t.keys| ensures Slices(t')[i] == Slices(t)[i] {
      assert t'.keys[i] == t.keys[i] != e.size;
    }
    assert Slices(t') == Slices(t) + [added];
    SumOfAppend(Slices(t), [added], SliceValue);
    SumOfSingle(added, SliceValue);
  }

  /** Conservation over the Map: its values add up to Σ currentQuantity. */
  lemma {:induction false} SizeTallyConserves(es: seq<SizeStock>)
    ensures TallyValid(SizeTally(es))
    ensures SumOf(Slices(SizeTally(es)), SliceValue) == SumOf(es, SizeCurrent)
    decreases |es|
  {
    if es != [] {
      var init := es[..|es| - 1];
      SizeTallyConserves(init);
      AddToSlices(SizeTally(init), es[|es| - 1]);
    }
  }

  /** Σ over all sizes of all varieties is Σ of the per-variety totals. */
  lemma {:induction false} SumOfFlatten(stock: seq<VarietyStock>)
    ensures SumOf(Flatten(stock), SizeCurrent) == SumOf(stock, VarietyTotal)
    decreases |stock|
  {
    if stock != [] {
      var init := stock[..|stock| - 1];
      SumOfFlatten(init);
      SumOfAppend(Flatten(init), stock[|stock| - 1].sizes, SizeCurrent);
    }
  }

  /** The pie chart's entries: none without data, else one per distinct size. */
  function SizeDistribution(summary: Option<seq<VarietyStock>>): seq<SizeSlice> {
    match summary
    case None => []
    case Some(stock) =>
      SizeTallyMeaning(Flatten(stock));
      Slices(SizeTally(Flatten(stock)))
  }

  /** The Map after visiting es in order, starting from t. */
  function AddAll(t: Tally, es: seq<SizeStock>): Tally
    decreases |es|
  {
    if es == [] then t else AddTo(AddAll(t, es[..|es| - 1]), es[|es| - 1])
  }

  /** Visiting x and then ys is visiting x + ys. */
  lemma {:induction false} SizeTallyAppend(x: seq<SizeStock>, ys: seq<SizeStock>)
    ensures SizeTally(x + ys) == AddAll(SizeTally(x), ys)
    decreases |ys|
  {
    if ys == [] {
      assert x + ys == x;
    } else {
      SizeTallyAppend(x, ys[..|ys| - 1]);
      assert (x + ys)[..|x + ys| - 1] == x + ys[..|ys| - 1];
    }
  }

  /** The inner forEach: one variety's sizes added to the Map. */
  method AddSizes(keys: seq<string>, values: map<string, int>, sizes: seq<SizeStock>)
    returns (keys': seq<string>, values': map<string, int>)
    ensures Tally(keys', values') == AddAll(Tally(keys, values), sizes)
  {
    keys', values' := keys, values;
    var j := 0;
    while j < |sizes|
      invariant 0 <= j <= |sizes|
      invariant Tally(keys', values') == AddAll(Tally(keys, values), sizes[..j])
    {
      var e := sizes[j];
      var current := if e.size in values' then values'[e.size] else 0;
      if e.size !in values' {
        keys' := keys' + [e.size];
      }
      values' := values'[e.size := current + e.currentQuantity];
      assert sizes[..j + 1][..j] == sizes[..j];
      j := j + 1;
    }
    assert sizes[..j] == sizes;
  }

  /** `Array.from(sizeMap.entries()).map(...)`. */
  method Entries(keys: seq<string>, values: map<string, int>) returns (slices: seq<SizeSlice>)
    requires TallyValid(Tally(keys, values))
    ensures slices == Slices(Tally(keys, values))
  {
    slices := [];
    var n := 0;
    while n < |keys|
      invariant 0 <= n <= |keys|
      invariant slices == Slices(Tally(keys, values))[..n]
    {
      slices := slices + [SizeSlice(keys[n], values[keys[n]])];
      n := n + 1;
    }
  }

  /** `createSizeDistributionData`: the nested forEach loops filling the Map. */
  method CreateSizeDistributionData(summary: Option<seq<VarietyStock>>) returns (slices: seq<SizeSlice>)
    ensures slices == SizeDistribution(summary)
  {
    if summary.None? {
      return [];
    }
    var stock := summary.value;
    var keys: seq<string> := [];
    var values: map<string, int> := map[];
    var i := 0;
    while i < |stock|
      invariant 0 <= i <= |stock|
      invariant Tally(keys, values) == SizeTally(Flatten(stock[..i]))
    {
      keys, values := AddSizes(keys, values, stock[i].sizes);
      SizeTallyAppend(Flatten(stock[..i]), stock[i].sizes);
      assert stock[..i + 1][..i] == stock[..i];
      i := i + 1;
    }
    assert stock[..i] == stock;
    SizeTallyMeaning(Flatten(stock));
    slices := Entries(keys, values);
  }

  /** Some chart entry is named k. */
  predicate HasSlice(slices: seq<SizeSlice>, k: string) {
    exists i :: 0 <= i < |slices| && slices[i].name == k
  }

  /** The pie chart has one entry per distinct size, no size twice, and each
      entry's value is that size's total across all varieties. */
  lemma SizeDistributionEntries(stock: seq<VarietyStock>)
    ensures var slices := SizeDistribution(Some(stock));
      (forall i, j :: 0 <= i < j < |slices| ==> slices[i].name != slices[j].name) &&
      (forall i :: 0 <= i < |slices| ==> slices[i].value == SizeTotal(Flatten(stock), slices[i].name)) &&
      (forall k :: HasSize(Flatten(stock), k) <==> HasSlice(slices, k))
  {
    var es := Flatten(stock);
    SizeTallyMeaning(es);
    var slices := SizeDistribution(Some(stock));
    var t := SizeTally(es);
    forall k | HasSize(es, k) ensures HasSlice(slices, k) {
      var i :| 0 <= i < |t.keys| && t.keys[i] == k;
      assert slices[i].name == k;
    }
  }

  /** Conservation: the chart's values add up to the inventory total, Σ of the
      per-variety totals. */
  lemma SizeDistributionConserves(stock: seq<VarietyStock>)
    ensures SumOf(SizeDistribution(Some(stock)), SliceValue) == SumOf(stock, VarietyTotal)
  {
    SizeTallyConserves(Flatten(stock));
    SumOfFlatten(stock);
  }

  // ---------------------------------------------------------------------------
  // calculateInsights

  function Totals(chart: seq<ChartRow>): seq<int> {
    seq(|chart|, i requires 0 <= i < |chart| => chart[i].total)
  }

  function Values(slices: seq<SizeSlice>): seq<int> {
    seq(|slices|, i requires 0 <= i < |slices| => slices[i].value)
  }

  function Counts(entries: seq<(string, int)>): seq<int> {
    seq(|entries|, i requires 0 <= i < |entries| => entries[i].1)
  }

  /** topVariety: starts as ('', 0) and takes each row whose total is strictly larger. */
  function TopVarietyOf(chart: seq<ChartRow>): (Field, int) {
    var b := Best(Totals(chart), 0);
    (if b.0 == -1 then Text("") else chart[b.0].name, b.1)
  }

  /** dominantSize: starts as ('', 0) and takes each entry whose value is strictly larger. */
  function DominantSizeOf(slices: seq<SizeSlice>): (string, int) {
    var b := Best(Values(slices), 0);
    (if b.0 == -1 then "" else slices[b.0].name, b.1)
  }

  /** topBagType: starts as ('', 0) and takes each bag type whose count is strictly larger. */
  function TopBagTypeOf(entries: seq<(string, int)>): (string, int) {
    var b := Best(Counts(entries), 0);
    (if b.0 == -1 then "" else entries[b.0].0, b.1)
  }

  /** The loop over the chart rows: adds up totalBags and keeps the top variety. */
  method TopVarietyLoop(chart: seq<ChartRow>) returns (topName: Field, topTotal: int, totalBags: int)
    ensures totalBags == SumOf(chart, RowTotal)
    ensures (topName, topTotal) == TopVarietyOf(chart)
  {
    topName, topTotal, totalBags := Text(""), 0, 0;
    ghost var best := -1;
    var k := 0;
    while k < |chart|
      invariant 0 <= k <= |chart|
      invariant totalBags == SumOf(chart[..k], RowTotal)
      invariant (best, topTotal) == Best(Totals(chart)[..k], 0)
      invariant topName == (if best == -1 then Text("") else chart[best].name)
    {
      BestStep(Totals(chart), k, 0);
      assert chart[..k + 1][..k] == chart[..k];
      totalBags := totalBags + chart[k].total;
      if chart[k].total > topTotal {
        topName, topTotal := chart[k].name, chart[k].total;
        best := k;
      }
      k := k + 1;
    }
    assert chart[..k] == chart;
    assert Totals(chart)[..k] == Totals(chart);
  }

  /** The loop over the size distribution keeping the dominant size. */
  method DominantSizeLoop(slices: seq<SizeSlice>) returns (name: string, value: int)
    ensures (name, value) == DominantSizeOf(slices)
  {
    name, value := "", 0;
    ghost var best := -1;
    var k := 0;
    while k < |slices|
      invariant 0 <= k <= |slices|
      invariant (best, value) == Best(Values(slices)[..k], 0)
      invariant name == (if best == -1 then "" else slices[best].name)
    {
      BestStep(Values(slices), k, 0);
      if slices[k].value > value {
        name, value := slices[k].name, slices[k].value;
        best := k;
      }
      k := k + 1;
    }
    assert Values(slices)[..k] == Values(slices);
  }

  /** The loop over `Object.entries(bagSummary)` keeping the top bag type. */
  method TopBagTypeLoop(entries: seq<(string, int)>) returns (bagType: string, count: int)
    ensures (bagType, count) == TopBagTypeOf(entries)
  {
    bagType, count := "", 0;
    ghost var best := -1;
    var k := 0;
    while k < |entries|
      invariant 0 <= k <= |entries|
      invariant (best, count) == Best(Counts(entries)[..k], 0)
      invariant bagType == (if best == -1 then "" else entries[best].0)
    {
      BestStep(Counts(entries), k, 0);
      if entries[k].1 > count {
        bagType, count := entries[k].0, entries[k].1;
        best := k;
      }
      k := k + 1;
    }
    assert Counts(entries)[..k] == Counts(entries);
  }

  /** The top variety's total is at least every variety's total and at least 0;
      it belongs to the earliest variety reaching it, and it is ('', 0) when no
      total is positive. */
  lemma TopVarietyMeaning(chart: seq<ChartRow>)
    ensures var top := TopVarietyOf(chart);
      top.1 >= 0 && (forall j :: 0 <= j < |chart| ==> chart[j].total <= top.1) &&
      ((forall j :: 0 <= j < |chart| ==> chart[j].total <= 0) ==> top == (Text(""), 0)) &&
      ((exists j :: 0 <= j < |chart| && chart[j].total > 0) ==>
        exists i :: 0 <= i < |chart| && chart[i].total == top.1 && chart[i].name == top.0 &&
          forall j :: 0 <= j < i ==> chart[j].total < top.1)
  {
    var vals := Totals(chart);
    BestMeaning(vals, 0);
    assert forall j :: 0 <= j < |chart| ==> vals[j] == chart[j].total;
    var b := Best(vals, 0);
    if b.0 != -1 {
      assert chart[b.0].total == b.1;
    }
  }

  /** The dominant size's value is at least every size's value and at least 0;
      ties go to the earliest inserted size, and it is ('', 0) when no value is
      positive. */
  lemma DominantSizeMeaning(slices: seq<SizeSlice>)
    ensures var dom := DominantSizeOf(slices);
      dom.1 >= 0 && (forall j :: 0 <= j < |slices| ==> slices[j].value <= dom.1) &&
      ((forall j :: 0 <= j < |slices| ==> slices[j].value <= 0) ==> dom == ("", 0)) &&
      ((exists j :: 0 <= j < |slices| && slices[j].value > 0) ==>
        exists i :: 0 <= i < |slices| && slices[i].value == dom.1 && slices[i].name == dom.0 &&
          forall j :: 0 <= j < i ==> slices[j].value < dom.1)
  {
    var vals := Values(slices);
    BestMeaning(vals, 0);
    assert forall j :: 0 <= j < |slices| ==> vals[j] == slices[j].value;
    var b := Best(vals, 0);
    if b.0 != -1 {
      assert slices[b.0].value == b.1;
    }
  }

  /** The top bag type is the first with the strictly largest positive count,
      and ('', 0) when no count is positive. */
  lemma TopBagTypeMeaning(entries: seq<(string, int)>)
    ensures var top := TopBagTypeOf(entries);
      top.1 >= 0 && (forall j :: 0 <= j < |entries| ==> entries[j].1 <= top.1) &&
      ((forall j :: 0 <= j < |entries| ==> entries[j].1 <= 0) ==> top == ("", 0)) &&
      ((exists j :: 0 <= j < |entries| && entries[j].1 > 0) ==>
        exists i :: 0 <= i < |entries| && entries[i].1 == top.1 && entries[i].0 == top.0 &&
          forall j :: 0 <= j < i ==> entries[j].1 < top.1)
  {
    var vals := Counts(entries);
    BestMeaning(vals, 0);
    assert forall j :: 0 <= j < |entries| ==> vals[j] == entries[j].1;
    var b := Best(vals, 0);
    if b.0 != -1 {
      assert entries[b.0].1 == b.1;
    }
  }

  datatype FarmerInsight = FarmerInsight(name: string, totalBags: int, topBagType: string, topBagCount: int)

  /** The insight about a farmer, without its percentage. */
  function FirstFarmerInsight(f: TopFarmer): FarmerInsight {
    FarmerInsight(f.farmerName, f.totalBags, TopBagTypeOf(BagEntries(f)).0, TopBagTypeOf(BagEntries(f)).1)
  }

  /** Over the bag summary object, the top bag count is at least 0 and at
      least the value every bag type ends up with, and a positive top count is
      the value the named bag type ends up with. */
  lemma TopBagTypeOfSummary(f: TopFarmer)
    ensures var top := TopBagTypeOf(BagEntries(f));
      top.1 >= 0 &&
      (forall k, j :: JsObjects.LastWithKey(f.bagSummary, k, j) ==> f.bagSummary[j].1 <= top.1) &&
      (top.1 > 0 ==> exists j :: JsObjects.LastWithKey(f.bagSummary, top.0, j) && f.bagSummary[j].1 == top.1)
  {
    var props := JsObjects.FromEntries(f.bagSummary);
    var e := BagEntries(f);
    JsObjects.FromEntriesMeaning(f.bagSummary);
    JsObjects.EntriesMeaning(props);
    TopBagTypeMeaning(e);
    var top := TopBagTypeOf(e);
    forall k, j | JsObjects.LastWithKey(f.bagSummary, k, j) ensures f.bagSummary[j].1 <= top.1 {
      var p := (k, f.bagSummary[j].1);
      assert p in multiset(props);
      var i :| 0 <= i < |e| && e[i] == p;
    }
    if top.1 > 0 {
      var i :| 0 <= i < |e| && e[i].1 == top.1 && e[i].0 == top.0;
      assert e[i] in multiset(props);
      assert (top.0, top.1) in props;
    }
  }

  /** Ties go to the bag type JavaScript lists first: `{"Seed": 4, "50": 4}`
      names "50", although "Seed" comes first in the response. */
  lemma TopBagTypeTieFavoursIndexKey()
    ensures FirstFarmerInsight(TopFarmer("f", 8, [("Seed", 4), ("50", 4)], "f", "Ramesh")).topBagType == "50"
  {
    var f := TopFarmer("f", 8, [("Seed", 4), ("50", 4)], "f", "Ramesh");
    JsObjects.IntegerKeyListedFirst();
    assert BagEntries(f) == [("50", 4), ("Seed", 4)];
    TieGoesToFirst(("50", 4), ("Seed", 4));
  }

  /** Of two entries with the same positive count, the first is the top. */
  lemma TieGoesToFirst(a: (string, int), b: (string, int))
    requires a.1 == b.1 > 0
    ensures TopBagTypeOf([a, b]) == a
  {
    var e := [a, b];
    TopBagTypeMeaning(e);
    assert e[0].1 > 0;
    var i :| 0 <= i < |e| && e[i].1 == TopBagTypeOf(e).1 && e[i].0 == TopBagTypeOf(e).0 &&
      forall j :: 0 <= j < i ==> e[j].1 < TopBagTypeOf(e).1;
    assert i == 0;
  }

  /** A bag type repeated in the response counts with its last value. */
  lemma TopBagTypeRepeatedKey()
    ensures FirstFarmerInsight(TopFarmer("f", 10, [("Seed", 9), ("Seed", 1)], "f", "Ramesh")).topBagCount == 1
  {
    var f := TopFarmer("f", 10, [("Seed", 9), ("Seed", 1)], "f", "Ramesh");
    TopBagTypeOfSummary(f);
    assert JsObjects.LastWithKey(f.bagSummary, "Seed", 1);
  }

  datatype Insights = Insights(
    totalInventory: int,
    topVariety: (Field, int),
    dominantSize: (string, int),
    topFarmerInsight: Option<FarmerInsight>)

  /** `calculateInsights` without its percentages: nothing without stock data;
      otherwise the inventory total, the top variety, the dominant size and, when
      there is a first top farmer, that farmer's top bag type. */
  method CalculateInsights(summary: Option<seq<VarietyStock>>, topFarmers: Option<seq<TopFarmer>>)
    returns (r: Option<Insights>)
    ensures summary.None? ==> r.None?
    ensures summary.Some? ==>
      (r.Some? &&
       r.value.totalInventory == SumOf(ProcessStockData(summary), RowTotal) &&
       r.value.topVariety == TopVarietyOf(ProcessStockData(summary)) &&
       r.value.dominantSize == DominantSizeOf(SizeDistribution(summary)))
    ensures summary.Some? ==>
      (r.value.topFarmerInsight.Some? <==> topFarmers.Some? && |topFarmers.value| > 0)
    ensures summary.Some? && topFarmers.Some? && |topFarmers.value| > 0 ==>
      r.value.topFarmerInsight == Some(FirstFarmerInsight(topFarmers.value[0]))
  {
    if summary.None? {
      return None;
    }
    var chart := ProcessStockData(summary);
    var topName, topTotal, totalBags := TopVarietyLoop(chart);
    var sizeData := CreateSizeDistributionData(summary);
    var domName, domValue := DominantSizeLoop(sizeData);
    var farmerInsight: Option<FarmerInsight> := None;
    if topFarmers.Some? && |topFarmers.value| > 0 {
      var f := topFarmers.value[0];
      var bagType, count := TopBagTypeLoop(BagEntries(f));
      farmerInsight := Some(FarmerInsight(f.farmerName, f.totalBags, bagType, count));
    }
    r := Some(Insights(totalBags, (topName, topTotal), (domName, domValue), farmerInsight));
  }

  /** Unless some size is called "total", the inventory total of the insights
      equals the sum of the size distribution's values. */
  lemma InventoryConservation(stock: seq<VarietyStock>)
    requires forall i, s :: 0 <= i < |stock| && 0 <= s < |stock[i].sizes| ==> stock[i].sizes[s].size != "total"
    ensures SumOf(ProcessStockData(Some(stock)), RowTotal) == SumOf(SizeDistribution(Some(stock)), SliceValue)
  {
    var chart := ProcessStockData(Some(stock));
    forall i | 0 <= i < |chart| ensures RowTotal(chart[i]) == VarietyTotal(stock[i]) {
      ProcessStockDataRows(Some(stock), i, "", -1);
    }
    SumOfCongruent(chart, RowTotal, stock, VarietyTotal);
    SizeDistributionConserves(stock);
  }

  // ---------------------------------------------------------------------------
  // "Top 2 sizes" and "lowest inventory" lines

  function NegValue(s: SizeSlice): int { -s.value }

  /** Numerator of the top-two share: the first two values of a copy sorted by
      descending value, shown only when there are more than two sizes. */
  function TopTwoValue(slices: seq<SizeSlice>): Option<int> {
    if |slices| > 2 then
      var sorted := Sort(slices, NegValue);
      Some(sorted[0].value + sorted[1].value)
    else None
  }

  /** The top-two numerator is the largest sum of two distinct entries: it is
      attained by two distinct entries and no two distinct entries exceed it. */
  lemma TopTwoIsLargestPair(slices: seq<SizeSlice>, i: int, j: int)
    requires |slices| > 2
    ensures TopTwoValue(slices).Some?
    ensures exists p, q :: 0 <= p < q < |slices| && TopTwoValue(slices).value == slices[p].value + slices[q].value
    ensures 0 <= i < |slices| && 0 <= j < |slices| && i != j ==>
      slices[i].value + slices[j].value <= TopTwoValue(slices).value
  {
    var sorted := Sort(slices, NegValue);
    SortSorted(slices, NegValue);
    var p, q := DistinctPositions(sorted, slices, 0, 1);
    if p < q {
      assert 0 <= p < q < |slices| && TopTwoValue(slices).value == slices[p].value + slices[q].value;
    } else {
      assert 0 <= q < p < |slices| && TopTwoValue(slices).value == slices[q].value + slices[p].value;
    }
    if 0 <= i < |slices| && 0 <= j < |slices| && i != j {
      SortFirstTwo(slices, NegValue, i, j);
    }
  }

  /** The array contents after copying entry j - 1 one place right. */
  lemma ShiftRight(a: seq<SizeSlice>, p: seq<SizeSlice>, rest: seq<SizeSlice>, j: int, y: SizeSlice)
    requires 0 < j <= |p|
    requires a == p[..j] + [y] + p[j..] + rest
    ensures a[j := a[j - 1]] == p[..j - 1] + [p[j - 1]] + p[j - 1..] + rest
  {
    var b := a[j := a[j - 1]];
    var c := p[..j - 1] + [p[j - 1]] + p[j - 1..] + rest;
    assert |b| == |c|;
    forall k | 0 <= k < |b| ensures b[k] == c[k] {
      if k < j - 1 {
      } else if k == j - 1 || k == j {
      } else if k <= |p| {
        assert b[k] == p[k - 1];
      } else {
      }
    }
  }

  /** Insertion into p[..j] passes over a last entry larger than x. */
  lemma InsertPast(p: seq<SizeSlice>, x: SizeSlice, j: int)
    requires 0 < j <= |p| && p[j - 1].value > x.value
    ensures Insert(p, x, SliceValue) == Insert(p[..j], x, SliceValue) + p[j..] ==>
            Insert(p, x, SliceValue) == Insert(p[..j - 1], x, SliceValue) + p[j - 1..]
  {
    assert p[..j][..j - 1] == p[..j - 1];
    assert p[j - 1..] == [p[j - 1]] + p[j..];
  }

  /** Insertion into p[..j] stops at once when its last entry is not larger than x. */
  lemma InsertStop(p: seq<SizeSlice>, x: SizeSlice, j: int)
    requires 0 <= j <= |p| && (j == 0 || p[j - 1].value <= x.value)
    ensures Insert(p[..j], x, SliceValue) == p[..j] + [x]
  {
  }

  /** One pass of insertion sort: a[i] moves left past every larger entry of
      the sorted prefix a[..i]. */
  method InsertInPlace(a: array<SizeSlice>, i: int)
    requires 0 <= i < a.Length
    modifies a
    ensures a[..i + 1] == Insert(old(a[..i]), old(a[i]), SliceValue)
    ensures a[i + 1..] == old(a[i + 1..])
  {
    var x := a[i];
    ghost var p := a[..i];
    ghost var rest := a[i + 1..];
    assert a[..] == p[..i] + [x] + p[i..] + rest;
    assert p[..i] == p && p[i..] == [];
    var j := i;
    while j > 0 && a[j - 1].value > x.value
      invariant 0 <= j <= i
      invariant a[..] == p[..j] + [a[j]] + p[j..] + rest
      invariant Insert(p, x, SliceValue) == Insert(p[..j], x, SliceValue) + p[j..]
    {
      InsertPast(p, x, j);
      ghost var before := a[..];
      a[j] := a[j - 1];
      assert a[..] == before[j := before[j - 1]];
      ShiftRight(before, p, rest, j, before[j]);
      j := j - 1;
    }
    ghost var before := a[..];
    a[j] := x;
    assert a[..] == before[j := x];
    PlaceAt(before, p, rest, j, before[j], x);
    InsertStop(p, x, j);
  }

  /** Writing x into the hole at j completes the insertion. */
  lemma PlaceAt(b: seq<SizeSlice>, p: seq<SizeSlice>, rest: seq<SizeSlice>, j: int, y: SizeSlice, x: SizeSlice)
    requires 0 <= j <= |p|
    requires b == p[..j] + [y] + p[j..] + rest
    ensures b[j := x][..|p| + 1] == p[..j] + [x] + p[j..]
    ensures b[j := x][|p| + 1..] == rest
  {
    var c := b[j := x];
    assert c == p[..j] + [x] + p[j..] + rest;
    assert (p[..j] + [x] + p[j..]) + rest == p[..j] + [x] + p[j..] + rest;
  }

  /** `sizeDistributionData.sort((a, b) => a.value - b.value)`: insertion sort
      in place. */
  method SortByValueInPlace(a: array<SizeSlice>)
    modifies a
    ensures a[..] == Sort(old(a[..]), SliceValue)
  {
    ghost var s := a[..];
    var i := 0;
    while i < a.Length
      invariant 0 <= i <= a.Length
      invariant a[..i] == Sort(s[..i], SliceValue)
      invariant a[i..] == s[i..]
    {
      InsertInPlace(a, i);
      assert s[..i + 1][..i] == s[..i];
      i := i + 1;
    }
    assert a[..] == a[..a.Length];
    assert s == s[..a.Length];
  }

  /** The "lowest inventory" line: names the first entry of the array after
      sorting it in place and takes the value of the first entry of a sorted
      copy. Both are the earliest entry of least value of the original order. */
  method LowestSizeLine(a: array<SizeSlice>) returns (name: string, smallest: int)
    requires a.Length > 0
    modifies a
    ensures a[..] == Sort(old(a[..]), SliceValue)
    ensures exists i :: FirstMinAt(old(a[..]), SliceValue, i) &&
                        name == old(a[..])[i].name && smallest == old(a[..])[i].value
  {
    ghost var s := a[..];
    SortByValueInPlace(a);
    name := a[0].name;
    var copy := Sort(a[..], SliceValue);
    smallest := copy[0].value;
    var i := SortHead(s, SliceValue);
    var k := SortHead(a[..], SliceValue);
    assert a[..][k] == copy[0];
    SortSorted(s, SliceValue);
    assert SliceValue(a[0]) <= SliceValue(a[k]);
    assert a[0] == s[i];
    assert SliceValue(s[i]) <= SliceValue(a[k]) by {
      assert a[k] in multiset(s);
    }
  }
}
