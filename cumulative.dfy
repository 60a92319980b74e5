/**
 * Cumulative-weight sampling, the rule both wheels use to turn one uniform draw into an
 * index: walk the weights with a running total and stop at the first index whose running
 * total is at least the draw.
 */
module Cumulative {
  import opened Optional

  /** Running total of the first `k` weights. */
  function Prefix(w: seq<real>, k: nat): real
    requires k <= |w|
  {
    if k == 0 then 0.0 else Prefix(w, k - 1) + w[k - 1]
  }

  /** Sum of all the weights (a left-to-right `reduce`). */
  function Total(w: seq<real>): real {
    Prefix(w, |w|)
  }

  predicate NonNegative(w: seq<real>) {
    forall i :: 0 <= i < |w| ==> 0.0 <= w[i]
  }

  /** Index `i` is the first whose running total (after adding `w[i]`) reaches `r`. */
  predicate IsFirstReaching(w: seq<real>, r: real, i: nat) {
    i < |w| && r <= Prefix(w, i + 1) &&
    forall m :: 1 <= m <= i ==> Prefix(w, m) < r
  }

  /** No running total reaches `r`: the walk falls through. */
  predicate NoneReaching(w: seq<real>, r: real) {
    forall m :: 1 <= m <= |w| ==> Prefix(w, m) < r
  }

  /** The first index below `k` whose running total reaches `r`, if any. */
  function FirstReachingIn(w: seq<real>, r: real, k: nat): (o: Option<nat>)
    requires k <= |w|
    ensures o.Some? ==> o.value < k && IsFirstReaching(w, r, o.value)
    ensures o.None? ==> forall m :: 1 <= m <= k ==> Prefix(w, m) < r
  {
    if k == 0 then None
    else match FirstReachingIn(w, r, k - 1)
      case Some(i) => Some(i)
      case None => if r <= Prefix(w, k) then Some(k - 1) else None
  }

  /** The first index of the whole sequence whose running total reaches `r`, if any. */
  function FirstReaching(w: seq<real>, r: real): Option<nat> {
    FirstReachingIn(w, r, |w|)
  }

  /** `FirstReaching` finds exactly the first reaching index, and finds nothing exactly when the walk falls through. */
  lemma FirstReachingIff(w: seq<real>, r: real, i: nat)
    ensures FirstReaching(w, r) == Some(i) <==> IsFirstReaching(w, r, i)
    ensures FirstReaching(w, r) == None <==> NoneReaching(w, r)
  {
  }

  /** With non-negative weights the running totals never decrease. */
  lemma {:induction false} PrefixMonotone(w: seq<real>, a: nat, b: nat)
    requires NonNegative(w)
    requires a <= b <= |w|
    ensures Prefix(w, a) <= Prefix(w, b)
  {
    if a < b {
      PrefixMonotone(w, a, b - 1);
    }
  }

  /** A draw no larger than the total is always reached: the fall-through default is dead code. */
  lemma ReachedWithinTotal(w: seq<real>, r: real)
    requires |w| >= 1
    requires r <= Total(w)
    ensures FirstReaching(w, r).Some?
    ensures FirstReaching(w, r).value < |w|
  {
  }

  /**
   * For non-negative weights, index `i` is the first reaching `r` exactly when `r` lies in
   * the interval `(Prefix(w, i), Prefix(w, i + 1)]` (closed at 0 for the first index), an
   * interval whose length is `w[i]`: the chance of `i` is proportional to its weight.
   */
  lemma FirstReachingInterval(w: seq<real>, r: real, i: nat)
    requires NonNegative(w)
    requires i < |w|
    ensures IsFirstReaching(w, r, i) <==> (i == 0 || Prefix(w, i) < r) && r <= Prefix(w, i + 1)
  {
    if (i == 0 || Prefix(w, i) < r) && r <= Prefix(w, i + 1) {
      forall m | 1 <= m <= i
        ensures Prefix(w, m) < r
      {
        PrefixMonotone(w, m, i);
      }
    }
  }

  /**
   * A weight-0 entry is never the first to reach the draw unless it is the very first entry
   * and the draw is not positive: its running total equals that of the entry before it.
   */
  lemma ZeroWeightSelection(w: seq<real>, r: real, i: nat)
    requires i < |w|
    requires w[i] == 0.0
    ensures IsFirstReaching(w, r, i) ==> i == 0 && r <= 0.0
  {
    assert Prefix(w, i + 1) == Prefix(w, i);
    if i == 0 {
      assert Prefix(w, 1) == 0.0;
    }
  }

  /** Scaling every weight by `c` scales every running total by `c`. */
  lemma {:induction false} PrefixScaled(w: seq<real>, v: seq<real>, c: real, k: nat)
    requires |v| == |w|
    requires forall i :: 0 <= i < |w| ==> v[i] == w[i] * c
    requires k <= |w|
    ensures Prefix(v, k) == Prefix(w, k) * c
  {
    if k > 0 {
      PrefixScaled(w, v, c, k - 1);
    }
  }
}
