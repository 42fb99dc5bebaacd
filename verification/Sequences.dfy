/** Filtering, as every bounded reader of the model does it. */
module Sequences {

  function Filter<T>(keep: T -> bool, xs: seq<T>): seq<T> {
    if xs == [] then []
    else
      var n := |xs| - 1;
      Filter(keep, xs[..n]) + (if keep(xs[n]) then [xs[n]] else [])
  }

  lemma FilterStep<T>(keep: T -> bool, xs: seq<T>, k: nat)
    requires k < |xs|
    ensures Filter(keep, xs[..k + 1]) == Filter(keep, xs[..k]) + (if keep(xs[k]) then [xs[k]] else [])
  {
    assert xs[..k + 1][..k] == xs[..k];
  }

  lemma {:induction false} FilterIsPrefix<T>(keep: T -> bool, xs: seq<T>, k: nat)
    requires k <= |xs|
    ensures Filter(keep, xs[..k]) <= Filter(keep, xs)
    decreases |xs|
  {
    if k < |xs| {
      var n := |xs| - 1;
      assert xs[..n][..k] == xs[..k];
      FilterIsPrefix(keep, xs[..n], k);
    } else {
      assert xs[..k] == xs;
    }
  }

  lemma {:induction false} FilterOfAppend<T>(keep: T -> bool, a: seq<T>, b: seq<T>)
    ensures Filter(keep, a + b) == Filter(keep, a) + Filter(keep, b)
    decreases |b|
  {
    if b == [] {
      assert a + b == a;
    } else {
      assert (a + b)[..|a + b| - 1] == a + b[..|b| - 1];
      FilterOfAppend(keep, a, b[..|b| - 1]);
    }
  }

  lemma {:induction false} FilterNone<T>(keep: T -> bool, xs: seq<T>)
    requires forall x :: x in xs ==> !keep(x)
    ensures Filter(keep, xs) == []
    decreases |xs|
  {
    if xs != [] { FilterNone(keep, xs[..|xs| - 1]); }
  }

  lemma {:induction false} FilterAgrees<T>(keep: T -> bool, keep': T -> bool, xs: seq<T>)
    requires forall x :: x in xs ==> keep(x) == keep'(x)
    ensures Filter(keep, xs) == Filter(keep', xs)
    decreases |xs|
  {
    if xs != [] { FilterAgrees(keep, keep', xs[..|xs| - 1]); }
  }

  lemma {:induction false} FilterAll<T>(keep: T -> bool, xs: seq<T>)
    requires forall x :: x in xs ==> keep(x)
    ensures Filter(keep, xs) == xs
    decreases |xs|
  {
    if xs != [] {
      var n := |xs| - 1;
      var init := xs[..n];
      FilterAll(keep, init);
      assert xs == init + [xs[n]];
    }
  }

  lemma {:induction false} FilterIsSubset<T>(keep: T -> bool, xs: seq<T>)
    ensures forall x :: x in Filter(keep, xs) ==> x in xs && keep(x)
    decreases |xs|
  {
    if xs != [] { FilterIsSubset(keep, xs[..|xs| - 1]); }
  }
}
