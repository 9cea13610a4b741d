/** Sums over sequences, and how they change when one element does. */
module Totals {

  function Total<T(!new)>(xs: seq<T>, w: T -> int): int {
    if xs == [] then 0 else Total(xs[..|xs| - 1], w) + w(xs[|xs| - 1])
  }

  lemma {:induction false} TotalUpdate<T(!new)>(xs: seq<T>, i: nat, x: T, w: T -> int)
    requires i < |xs|
    ensures Total(xs[i := x], w) == Total(xs, w) - w(xs[i]) + w(x)
  {
    var n := |xs| - 1;
    if i == n {
      assert xs[i := x][..n] == xs[..n];
    } else {
      assert xs[i := x][..n] == xs[..n][i := x];
      TotalUpdate(xs[..n], i, x, w);
    }
  }

  lemma TotalAppend<T(!new)>(xs: seq<T>, x: T, w: T -> int)
    ensures Total(xs + [x], w) == Total(xs, w) + w(x)
  {
    assert (xs + [x])[..|xs|] == xs;
  }

  /** A sum of weights between lo and hi lies between the same multiples of the length. */
  lemma {:induction false} TotalBounds<T(!new)>(xs: seq<T>, w: T -> int, lo: int, hi: int)
    requires forall x :: x in xs ==> lo <= w(x) <= hi
    ensures |xs| * lo <= Total(xs, w) <= |xs| * hi
  {
    if xs != [] {
      var n := |xs| - 1;
      assert forall x :: x in xs[..n] ==> x in xs;
      TotalBounds(xs[..n], w, lo, hi);
      assert xs[n] in xs;
      assert (n + 1) * lo == n * lo + lo && (n + 1) * hi == n * hi + hi;
    }
  }

  lemma {:induction false} TotalSum<T(!new)>(xs: seq<T>, v: T -> int, w: T -> int, u: T -> int)
    requires forall x :: x in xs ==> u(x) == v(x) + w(x)
    ensures Total(xs, u) == Total(xs, v) + Total(xs, w)
  {
    if xs != [] {
      var n := |xs| - 1;
      assert forall x :: x in xs[..n] ==> x in xs;
      TotalSum(xs[..n], v, w, u);
      assert xs[n] in xs;
    }
  }
}
