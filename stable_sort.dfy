/** A stable sort by an integer key, the result `Array.prototype.sort` gives for
    a comparator `(a, b) => key(a) - key(b)`: the language requires the sort to
    be stable, and a stable sort of a sequence by a key has exactly one
    possible result, which insertion sort computes. A descending sort
    `(a, b) => key(b) - key(a)` is the ascending sort by the negated key. */
module StableSort {

  predicate SortedBy<T>(s: seq<T>, key: T -> int) {
    forall i, j :: 0 <= i < j < |s| ==> key(s[i]) <= key(s[j])
  }

  /** Places x after every element of t whose key is at most key(x), scanning
      from the back: the step of insertion sort. */
  function Insert<T>(t: seq<T>, x: T, key: T -> int): (r: seq<T>)
    ensures |r| == |t| + 1
    decreases |t|
  {
    if t == [] || key(t[|t| - 1]) <= key(x) then t + [x]
    else Insert(t[..|t| - 1], x, key) + [t[|t| - 1]]
  }

  function Sort<T>(s: seq<T>, key: T -> int): (r: seq<T>)
    ensures |r| == |s|
    decreases |s|
  {
    if s == [] then [] else Insert(Sort(s[..|s| - 1], key), s[|s| - 1], key)
  }

  /** Insertion adds exactly one occurrence of x. */
  lemma {:induction false} InsertPermutes<T>(t: seq<T>, x: T, key: T -> int)
    ensures multiset(Insert(t, x, key)) == multiset(t) + multiset{x}
    decreases |t|
  {
    if !(t == [] || key(t[|t| - 1]) <= key(x)) {
      var init, last := t[..|t| - 1], t[|t| - 1];
      assert t == init + [last];
      InsertPermutes(init, x, key);
    }
  }

  /** Insertion keeps every key under a bound that x and t respect. */
  lemma {:induction false} InsertBounded<T>(t: seq<T>, x: T, key: T -> int, b: int)
    requires forall i :: 0 <= i < |t| ==> key(t[i]) <= b
    requires key(x) <= b
    ensures forall i :: 0 <= i < |Insert(t, x, key)| ==> key(Insert(t, x, key)[i]) <= b
    decreases |t|
  {
    if t == [] || key(t[|t| - 1]) <= key(x) {
    } else {
      InsertBounded(t[..|t| - 1], x, key, b);
    }
  }

  lemma {:induction false} InsertSorted<T>(t: seq<T>, x: T, key: T -> int)
    requires SortedBy(t, key)
    ensures SortedBy(Insert(t, x, key), key)
    decreases |t|
  {
    if t == [] || key(t[|t| - 1]) <= key(x) {
    } else {
      var init, last := t[..|t| - 1], t[|t| - 1];
      InsertSorted(init, x, key);
      InsertBounded(init, x, key, key(last));
      var r := Insert(init, x, key);
      assert Insert(t, x, key) == r + [last];
    }
  }

  /** The sort orders by key and rearranges its input. */
  lemma {:induction false} SortSorted<T>(s: seq<T>, key: T -> int)
    ensures SortedBy(Sort(s, key), key)
    ensures multiset(Sort(s, key)) == multiset(s)
    decreases |s|
  {
    if s != [] {
      var init, last := s[..|s| - 1], s[|s| - 1];
      assert s == init + [last];
      SortSorted(init, key);
      InsertSorted(Sort(init, key), last, key);
      InsertPermutes(Sort(init, key), last, key);
    }
  }

  /** Inserting into a sorted sequence puts x first exactly when its key is
      below every key already there. */
  lemma {:induction false} InsertHead<T>(t: seq<T>, x: T, key: T -> int)
    requires SortedBy(t, key)
    ensures Insert(t, x, key)[0] == (if t == [] || key(x) < key(t[0]) then x else t[0])
    decreases |t|
  {
    if t == [] || key(t[|t| - 1]) <= key(x) {
    } else if |t| > 1 {
      InsertHead(t[..|t| - 1], x, key);
    }
  }

  /** s[i] is the first element of s with the least key. */
  predicate FirstMinAt<T>(s: seq<T>, key: T -> int, i: int) {
    0 <= i < |s| &&
    (forall j :: 0 <= j < |s| ==> key(s[i]) <= key(s[j])) &&
    (forall j :: 0 <= j < i ==> key(s[j]) > key(s[i]))
  }

  /** Appending one element keeps the first least position, unless the new
      element's key is smaller still. */
  lemma FirstMinExtend<T>(s: seq<T>, key: T -> int, k: int)
    requires |s| > 1 && FirstMinAt(s[..|s| - 1], key, k)
    ensures key(s[|s| - 1]) < key(s[k]) ==> FirstMinAt(s, key, |s| - 1)
    ensures key(s[|s| - 1]) >= key(s[k]) ==> FirstMinAt(s, key, k)
  {
    assert forall j :: 0 <= j < |s| - 1 ==> s[..|s| - 1][j] == s[j];
  }

  /** Stability at the head: the first element of the sorted sequence is the
      earliest element of least key. */
  lemma {:induction false} SortHead<T>(s: seq<T>, key: T -> int) returns (i: int)
    requires |s| > 0
    ensures FirstMinAt(s, key, i) && Sort(s, key)[0] == s[i]
    decreases |s|
  {
    var n := |s| - 1;
    var init, last := s[..n], s[n];
    if n == 0 {
      i := 0;
    } else {
      var k := SortHead(init, key);
      SortSorted(init, key);
      var t := Sort(init, key);
      InsertHead(t, last, key);
      FirstMinExtend(s, key, k);
      assert t[0] == s[k];
      i := if key(last) < key(t[0]) then n else k;
    }
  }

  /** Two distinct positions of s hold two occurrences of the multiset of s. */
  lemma TwoOccurrences<T>(s: seq<T>, i: int, j: int)
    requires 0 <= i < |s| && 0 <= j < |s| && i != j
    ensures s[j] in multiset(s) - multiset{s[i]}
  {
    var lo, hi := if i < j then i else j, if i < j then j else i;
    assert s == s[..lo] + [s[lo]] + s[lo + 1..hi] + [s[hi]] + s[hi + 1..];
  }

  /** Removing the element at p removes one occurrence of it. */
  lemma RemoveAt<T>(r: seq<T>, p: int)
    requires 0 <= p < |r|
    ensures multiset(r[..p] + r[p + 1..]) == multiset(r) - multiset{r[p]}
  {
    assert r == r[..p] + [r[p]] + r[p + 1..];
  }

  /** In a sorted sequence the first two keys add up to no more than the keys at
      any two distinct positions. */
  lemma SortedFirstTwo<T>(r: seq<T>, key: T -> int, p: int, q: int)
    requires SortedBy(r, key)
    requires 0 <= p < |r| && 0 <= q < |r| && p != q
    ensures key(r[0]) + key(r[1]) <= key(r[p]) + key(r[q])
  {
    if p == 0 {
      assert key(r[1]) <= key(r[q]);
    } else if q == 0 {
      assert key(r[1]) <= key(r[p]);
    } else {
      assert key(r[0]) <= key(r[q]) && key(r[1]) <= key(r[p]);
    }
  }

  /** Two distinct positions of s are two distinct positions of any rearrangement r. */
  lemma DistinctPositions<T>(s: seq<T>, r: seq<T>, i: int, j: int) returns (p: int, q: int)
    requires multiset(r) == multiset(s)
    requires 0 <= i < |s| && 0 <= j < |s| && i != j
    ensures 0 <= p < |r| && 0 <= q < |r| && p != q && r[p] == s[i] && r[q] == s[j]
  {
    assert s[i] in multiset(r);
    p :| 0 <= p < |r| && r[p] == s[i];
    TwoOccurrences(s, i, j);
    var rest := r[..p] + r[p + 1..];
    RemoveAt(r, p);
    assert s[j] in multiset(rest);
    var k :| 0 <= k < |rest| && rest[k] == s[j];
    q := if k < p then k else k + 1;
  }

  /** The first two entries of the sorted sequence have the two least keys:
      their keys add up to no more than those of any two distinct positions. */
  lemma SortFirstTwo<T>(s: seq<T>, key: T -> int, i: int, j: int)
    requires 0 <= i < |s| && 0 <= j < |s| && i != j
    ensures var r := Sort(s, key); key(r[0]) + key(r[1]) <= key(s[i]) + key(s[j])
  {
    var r := Sort(s, key);
    SortSorted(s, key);
    var p, q := DistinctPositions(s, r, i, j);
    SortedFirstTwo(r, key, p, q);
  }
}
