/** Plain JavaScript objects with number-valued properties, as `JSON.parse`
    builds them from a response body, and the order in which `Object.entries`
    lists their properties: keys that are array indices first, in ascending
    numeric order, then the other string keys in the order their properties
    were created (OrdinaryOwnPropertyKeys, section 10.1.11.1 of ECMA-262). */
module JsObjects {
  import opened JsStrings
  import opened StableSort

  /** A property: its key and its value. */
  type Property = (string, int)

  predicate DistinctKeys(props: seq<Property>) {
    forall i, j :: 0 <= i < j < |props| ==> props[i].0 != props[j].0
  }

  predicate HasKey(props: seq<Property>, k: string) {
    exists i :: 0 <= i < |props| && props[i].0 == k
  }

  /** Position j holds the last entry with key k. */
  predicate LastWithKey(entries: seq<Property>, k: string, j: int) {
    0 <= j < |entries| && entries[j].0 == k &&
    forall j' :: j < j' < |entries| ==> entries[j'].0 != k
  }

  // ---------------------------------------------------------------------------
  // Building an object

  /** `o[k] = v`: an existing property keeps its place and takes the new value;
      a new property is created last. */
  function Assign(props: seq<Property>, k: string, v: int): seq<Property> {
    if HasKey(props, k) then
      seq(|props|, i requires 0 <= i < |props| => if props[i].0 == k then (k, v) else props[i])
    else props + [(k, v)]
  }

  /** After `o[k] = v` the object holds (k, v), every other property it held,
      and nothing else; its keys stay distinct. */
  lemma AssignMeaning(props: seq<Property>, k: string, v: int)
    requires DistinctKeys(props)
    ensures DistinctKeys(Assign(props, k, v))
    ensures (k, v) in Assign(props, k, v)
    ensures forall p :: p in Assign(props, k, v) ==> p == (k, v) || (p.0 != k && p in props)
    ensures forall p :: p in props && p.0 != k ==> p in Assign(props, k, v)
  {
    var r := Assign(props, k, v);
    if HasKey(props, k) {
      var i :| 0 <= i < |props| && props[i].0 == k;
      assert r[i] == (k, v);
      forall p | p in props && p.0 != k ensures p in r {
        var j :| 0 <= j < |props| && props[j] == p;
        assert r[j] == p;
      }
    } else {
      assert r[|props|] == (k, v);
    }
  }

  /** The object whose properties are set from entries in order: the members
      of a JSON object as `JSON.parse` reads them, or a spread of entries. */
  function FromEntries(entries: seq<Property>): seq<Property>
    decreases |entries|
  {
    if entries == [] then []
    else
      var last := entries[|entries| - 1];
      Assign(FromEntries(entries[..|entries| - 1]), last.0, last.1)
  }

  /** The built object has distinct keys; each of its properties holds the
      value of the last entry with that key, and the last entry with any key
      is among its properties. */
  lemma {:induction false} FromEntriesMeaning(entries: seq<Property>)
    ensures DistinctKeys(FromEntries(entries))
    ensures forall p :: p in FromEntries(entries) ==>
      exists j :: LastWithKey(entries, p.0, j) && entries[j].1 == p.1
    ensures forall k, j :: LastWithKey(entries, k, j) ==> (k, entries[j].1) in FromEntries(entries)
    decreases |entries|
  {
    if entries != [] {
      var init, last := entries[..|entries| - 1], entries[|entries| - 1];
      var n := |entries| - 1;
      FromEntriesMeaning(init);
      var p0 := FromEntries(init);
      AssignMeaning(p0, last.0, last.1);
      forall p | p in FromEntries(entries)
        ensures exists j :: LastWithKey(entries, p.0, j) && entries[j].1 == p.1
      {
        if p == last {
          assert LastWithKey(entries, p.0, n);
        } else {
          assert p.0 != last.0 && p in p0;
          var j :| LastWithKey(init, p.0, j) && init[j].1 == p.1;
          assert LastWithKey(entries, p.0, j);
        }
      }
      forall k, j | LastWithKey(entries, k, j) ensures (k, entries[j].1) in FromEntries(entries) {
        if j < n {
          assert LastWithKey(init, k, j);
          assert (k, init[j].1) in p0;
        }
      }
    }
  }

  /** Entries with distinct keys build an object with exactly those properties
      in exactly that order. */
  lemma {:induction false} FromDistinctEntries(entries: seq<Property>)
    requires DistinctKeys(entries)
    ensures FromEntries(entries) == entries
    decreases |entries|
  {
    if entries != [] {
      var init, last := entries[..|entries| - 1], entries[|entries| - 1];
      assert DistinctKeys(init);
      FromDistinctEntries(init);
      assert !HasKey(init, last.0) by {
        forall i | 0 <= i < |init| ensures init[i].0 != last.0 {
          assert entries[i] == init[i];
        }
      }
    }
  }

  // ---------------------------------------------------------------------------
  // Object.entries

  const MaxArrayIndex := 0xFFFF_FFFE

  /** The number a string of decimal digits denotes. */
  function DecimalValue(k: string): nat
    requires AllDecimal(k)
  {
    assert forall i :: 0 <= i < |k| ==> IsDigitIn(k[i], 10);
    DigitsValue(k, 10)
  }

  /** An array index: the canonical decimal form (no sign, no leading zero) of
      an integer from 0 to 2^32 - 2. */
  predicate IsArrayIndex(k: string) {
    k != [] && AllDecimal(k) && (k[0] == '0' ==> |k| == 1) && DecimalValue(k) <= MaxArrayIndex
  }

  /** Sort key of a property: its index for an array-index key. */
  function IndexKey(p: Property): int {
    if IsArrayIndex(p.0) then DecimalValue(p.0) else 0
  }

  /** The properties whose key is (or is not) an array index, in object order. */
  function Select(props: seq<Property>, indices: bool): (r: seq<Property>)
    ensures forall p :: p in r ==> IsArrayIndex(p.0) == indices
    decreases |props|
  {
    if props == [] then []
    else
      var last := props[|props| - 1];
      Select(props[..|props| - 1], indices) + (if IsArrayIndex(last.0) == indices then [last] else [])
  }

  /** The two selections split the properties between them. */
  lemma {:induction false} SelectSplits(props: seq<Property>)
    ensures multiset(Select(props, true)) + multiset(Select(props, false)) == multiset(props)
    decreases |props|
  {
    if props != [] {
      var init := props[..|props| - 1];
      SelectSplits(init);
      assert props == init + [props[|props| - 1]];
    }
  }

  /** `Object.entries(o)`: array-index keys in ascending numeric order, then the
      other keys in creation order. */
  function Entries(props: seq<Property>): seq<Property> {
    Sort(Select(props, true), IndexKey) + Select(props, false)
  }

  /** `Object.entries` lists every property once, puts every array-index key
      before every other key, and lists the array-index keys in ascending
      numeric order. */
  lemma EntriesMeaning(props: seq<Property>)
    ensures multiset(Entries(props)) == multiset(props)
    ensures forall i, j :: 0 <= i < j < |Entries(props)| && IsArrayIndex(Entries(props)[j].0) ==>
      IsArrayIndex(Entries(props)[i].0) && DecimalValue(Entries(props)[i].0) <= DecimalValue(Entries(props)[j].0)
  {
    var idx := Select(props, true);
    var sorted := Sort(idx, IndexKey);
    SortSorted(idx, IndexKey);
    SelectSplits(props);
    var e := Entries(props);
    forall i | 0 <= i < |sorted| ensures IsArrayIndex(sorted[i].0) {
      assert sorted[i] in multiset(idx);
    }
    forall k | |sorted| <= k < |e| ensures !IsArrayIndex(e[k].0) {
      assert e[k] in Select(props, false);
    }
    forall i, j | 0 <= i < j < |e| && IsArrayIndex(e[j].0)
      ensures IsArrayIndex(e[i].0) && DecimalValue(e[i].0) <= DecimalValue(e[j].0)
    {
      assert IndexKey(sorted[i]) <= IndexKey(sorted[j]);
    }
  }

  /** A key that starts with anything but a digit is not an array index. */
  lemma NonDigitKey(k: string)
    requires k != [] && !('0' <= k[0] <= '9')
    ensures !IsArrayIndex(k)
  {
  }

  /** A two-digit key without a leading zero is an array index. */
  lemma TwoDigitKey(k: string)
    requires |k| == 2 && '1' <= k[0] <= '9' && '0' <= k[1] <= '9'
    ensures IsArrayIndex(k)
    ensures DecimalValue(k) == 10 * (k[0] as int - '0' as int) + (k[1] as int - '0' as int)
  {
    var hi := k[..1];
    assert hi[..0] == [];
    assert DigitsValue(hi, 10) == DigitValue(k[0]);
    assert DigitsValue(k, 10) == DigitsValue(hi, 10) * 10 + DigitValue(k[1]);
  }

  /** A string key created before an array-index key is listed after it. */
  lemma IndexKeyOvertakes(a: Property, b: Property)
    requires a.0 != b.0 && !IsArrayIndex(a.0) && IsArrayIndex(b.0)
    ensures Entries(FromEntries([a, b])) == [b, a]
  {
    var entries := [a, b];
    assert DistinctKeys(entries);
    FromDistinctEntries(entries);
    assert entries[..1] == [a];
    assert [a][..0] == [];
    assert Select([a], true) == [];
    assert Select([a], false) == [a];
    assert Select(entries, true) == Select([a], true) + [b];
    assert Select(entries, false) == Select([a], false);
    assert [b][..0] == [];
    assert Sort([b], IndexKey) == [b];
  }

  /** A bag summary `{"Seed": 4, "50": 4}` is listed with "50" first. */
  lemma IntegerKeyListedFirst()
    ensures Entries(FromEntries([("Seed", 4), ("50", 4)])) == [("50", 4), ("Seed", 4)]
  {
    NonDigitKey("Seed");
    TwoDigitKey("50");
    IndexKeyOvertakes(("Seed", 4), ("50", 4));
  }
}
