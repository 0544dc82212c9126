/** Weighted counts over sequences. */
module Tallies {
  function Tally<T>(xs: seq<T>, weight: T -> nat): nat {
    if xs == [] then 0 else Tally(xs[..|xs| - 1], weight) + weight(xs[|xs| - 1])
  }

  lemma {:induction false} TallyUpdate<T>(xs: seq<T>, i: nat, x: T, weight: T -> nat)
    requires i < |xs|
    ensures Tally(xs[i := x], weight) + weight(xs[i]) == Tally(xs, weight) + weight(x)
  {
    var n := |xs| - 1;
    var xs' := xs[i := x];
    if i < n {
      TallyUpdate(xs[..n], i, x, weight);
      assert xs'[..n] == xs[..n][i := x];
    } else {
      assert xs'[..n] == xs[..n];
    }
  }

  // Two sequences that weigh the same at every index but i.
  lemma {:induction false} TallyChange<T>(xs: seq<T>, ys: seq<T>, i: nat, weight: T -> nat)
    requires i < |xs| == |ys|
    requires forall j :: 0 <= j < |xs| && j != i ==> weight(xs[j]) == weight(ys[j])
    ensures Tally(ys, weight) + weight(xs[i]) == Tally(xs, weight) + weight(ys[i])
  {
    var n := |xs| - 1;
    if i < n {
      TallyChange(xs[..n], ys[..n], i, weight);
    } else {
      TallySame(xs[..n], ys[..n], weight);
    }
  }

  lemma {:induction false} TallySame<T>(xs: seq<T>, ys: seq<T>, weight: T -> nat)
    requires |xs| == |ys| && forall j :: 0 <= j < |xs| ==> weight(xs[j]) == weight(ys[j])
    ensures Tally(xs, weight) == Tally(ys, weight)
  {
    if xs != [] {
      TallySame(xs[..|xs| - 1], ys[..|ys| - 1], weight);
    }
  }

  lemma {:induction false} TallyAtLeastTwo<T>(xs: seq<T>, i: nat, j: nat, weight: T -> nat)
    requires i < j < |xs|
    ensures weight(xs[i]) + weight(xs[j]) <= Tally(xs, weight)
  {
    if j == |xs| - 1 {
      TallyAtLeast(xs[..j], i, weight);
    } else {
      TallyAtLeastTwo(xs[..|xs| - 1], i, j, weight);
    }
  }

  lemma {:induction false} TallyAtLeast<T>(xs: seq<T>, i: nat, weight: T -> nat)
    requires i < |xs|
    ensures weight(xs[i]) <= Tally(xs, weight)
  {
    if i < |xs| - 1 {
      TallyAtLeast(xs[..|xs| - 1], i, weight);
    }
  }

  lemma TallyAppend<T>(xs: seq<T>, x: T, weight: T -> nat)
    ensures Tally(xs + [x], weight) == Tally(xs, weight) + weight(x)
  {
    assert (xs + [x])[..|xs|] == xs;
  }

  lemma {:induction false} TallyBelow<T>(xs: seq<T>, light: T -> nat, heavy: T -> nat)
    requires forall x :: x in xs ==> light(x) <= heavy(x)
    ensures Tally(xs, light) <= Tally(xs, heavy)
  {
    if xs != [] {
      var front, last := xs[..|xs| - 1], xs[|xs| - 1];
      assert last in xs && forall x :: x in front ==> x in xs;
      TallyBelow(front, light, heavy);
    }
  }
}
