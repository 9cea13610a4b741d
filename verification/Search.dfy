/** The first element of a sequence that satisfies a predicate. */
module Search {
  import opened IoProtocol

  /** The first place at or after k whose element satisfies p. */
  function First<T(!new)>(xs: seq<T>, p: T -> bool, k: nat): (q: Option<nat>)
    requires k <= |xs|
    decreases |xs| - k
    ensures q.Some? ==> k <= q.value < |xs| && p(xs[q.value]) && forall j :: k <= j < q.value ==> !p(xs[j])
    ensures q.None? ==> forall j :: k <= j < |xs| ==> !p(xs[j])
  {
    if k == |xs| then None else if p(xs[k]) then Some(k) else First(xs, p, k + 1)
  }

  /** A place that satisfies p is the first one exactly if none before it does. */
  lemma FirstIff<T(!new)>(xs: seq<T>, p: T -> bool, i: nat)
    requires i < |xs| && p(xs[i])
    ensures First(xs, p, 0) == Some(i) <==> forall j :: 0 <= j < i ==> !p(xs[j])
  {
    var q := First(xs, p, 0);
    assert q.Some?;
  }
}
