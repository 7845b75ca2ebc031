/** The "running best" loop the dashboard uses to pick a top entry:
    `best = init; for each x in order: if (x > best) best = x`. Because the
    comparison is strict, ties keep the earlier entry. */
module RunningMax {

  /** Position (-1 while the initial value is kept) and value of the running
      best after visiting all of vals. */
  function Best(vals: seq<int>, init: int): (r: (int, int))
    ensures -1 <= r.0 < |vals|
    decreases |vals|
  {
    if vals == [] then (-1, init)
    else
      var prev := Best(vals[..|vals| - 1], init);
      if vals[|vals| - 1] > prev.1 then (|vals| - 1, vals[|vals| - 1]) else prev
  }

  /** The running best is the first position holding the largest value, as long
      as that value exceeds the initial one; otherwise the initial value stays
      with position -1. */
  lemma {:induction false} BestMeaning(vals: seq<int>, init: int)
    ensures var r := Best(vals, init);
      r.1 >= init &&
      (forall j :: 0 <= j < |vals| ==> vals[j] <= r.1) &&
      (r.0 == -1 ==> r.1 == init) &&
      (r.0 == -1 <==> forall j :: 0 <= j < |vals| ==> vals[j] <= init) &&
      (r.0 != -1 ==> vals[r.0] == r.1 && r.1 > init && forall j :: 0 <= j < r.0 ==> vals[j] < r.1)
    decreases |vals|
  {
    if vals != [] {
      var init' := vals[..|vals| - 1];
      BestMeaning(init', init);
      var prev := Best(init', init);
      if vals[|vals| - 1] > prev.1 {
        assert forall j :: 0 <= j < |vals| - 1 ==> vals[j] == init'[j];
      } else {
        assert forall j :: 0 <= j < |vals| - 1 ==> vals[j] == init'[j];
      }
    }
  }

  /** One more step of the loop. */
  lemma BestStep(vals: seq<int>, k: int, init: int)
    requires 0 <= k < |vals|
    ensures Best(vals[..k + 1], init) ==
      (if vals[k] > Best(vals[..k], init).1 then (k, vals[k]) else Best(vals[..k], init))
  {
    assert vals[..k + 1][..k] == vals[..k];
  }
}
