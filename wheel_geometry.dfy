/**
 * The angle arithmetic of the canvas wheel. Angles are measured in turns rather than
 * radians: a full circle (2π) is 1.0 and the quarter-turn pointer offset (π/2) is 0.25, so
 * the wrap, the floor and the snap are exact. Canvas angles grow clockwise from the
 * three o'clock direction; the needle is drawn straight up, at three quarters of a turn.
 */
module WheelGeometry {

  /** Number of characters of a label drawn on its slice. */
  const LabelLimit: nat := 21

  /** The drawn label: the first `LabelLimit` characters of the segment text. */
  function Truncated(s: string): (r: string)
    ensures r <= s
    ensures |r| == if |s| < LabelLimit then |s| else LabelLimit
  {
    if |s| <= LabelLimit then s else s[..LabelLimit]
  }

  /** An angle brought below one turn by taking off whole turns while it is at least one turn. */
  function Wrapped(a: real): real {
    if a < 1.0 then a else a - a.Floor as real
  }

  /** From a non-negative angle, the wrapped angle lies in [0, 1) and differs by a whole number of turns. */
  lemma WrappedWithinOneTurn(a: real)
    requires 0.0 <= a
    ensures 0.0 <= Wrapped(a) < 1.0
    ensures a - Wrapped(a) == (a - Wrapped(a)).Floor as real
    ensures 0.0 <= a - Wrapped(a)
  {
  }

  /** A real lying within one unit above a whole number has that whole number as its floor. */
  lemma FloorOfWhole(x: real, k: int)
    requires k as real <= x < k as real + 1.0
    ensures x.Floor == k
  {
  }

  /** The `while (angle >= 2π) angle -= 2π` loop of the tick. */
  method WrapTurns(a: real) returns (w: real)
    ensures w == Wrapped(a)
  {
    w := a;
    ghost var k: int := 0;
    while w >= 1.0
      invariant w == a - k as real
      invariant a < 1.0 ==> k == 0
      invariant a >= 1.0 ==> 0.0 <= w
      decreases a.Floor - k
    {
      FloorOfWhole(a, a.Floor);
      w := w - 1.0;
      k := k + 1;
    }
    if a >= 1.0 {
      FloorOfWhole(a, k);
    }
  }

  /** The angle at which a finished spin is snapped for target `t` of `n` segments: (n - t) / n turns. */
  function SnapAngle(t: nat, n: nat): real
    requires n >= 1
  {
    (n - t) as real / n as real
  }

  /** For a valid target the snapped angle lies in (0, 1]: it is 1 (a full turn) for target 0. */
  lemma SnapAngleInRange(t: nat, n: nat)
    requires t < n
    ensures 0.0 < SnapAngle(t, n) <= 1.0
    ensures t == 0 <==> SnapAngle(t, n) == 1.0
  {
  }

  /**
   * The segment index the needle reports for wheel angle `angle`: the quarter-turn offset is
   * added, the circle is cut into `n` arcs counted backwards, and the result is wrapped once.
   */
  function NeedleIndex(angle: real, n: nat): int
    requires n >= 1
  {
    var i := n - ((angle + 0.25) * n as real).Floor - 1;
    if i < 0 then i + n else if i >= n then i - n else i
  }

  /** Start (and, for `k + 1`, end) of slice `k` when the wheel is turned by `angle`. */
  function ArcStart(angle: real, k: nat, n: nat): real
    requires n >= 1
  {
    angle + k as real / n as real
  }

  /** For an angle within one turn, one wrap suffices: the needle index names a segment. */
  lemma NeedleIndexInRange(angle: real, n: nat)
    requires n >= 1
    requires 0.0 <= angle <= 1.0
    ensures 0 <= NeedleIndex(angle, n) < n
  {
    var x := (angle + 0.25) * n as real;
    ScaledBounds(angle, n);
    FloorBounds(x);
    var f := x.Floor;
    assert 0.0 <= x < (2 * n) as real;
    assert f as real < (2 * n) as real;
    assert 0 <= f < 2 * n;
    var i: int := n - f - 1;
    assert -(n as int) <= i < n;
    assert NeedleIndex(angle, n) == if i < 0 then i + n else i;
  }

  /** The floor of a real lies within one unit below it. */
  lemma FloorBounds(x: real)
    ensures x.Floor as real <= x < x.Floor as real + 1.0
  {
  }

  /** The needle's scaled angle for an angle within one turn stays below two full circles of segments. */
  lemma ScaledBounds(angle: real, n: nat)
    requires n >= 1
    requires 0.0 <= angle <= 1.0
    ensures 0.0 <= (angle + 0.25) * n as real < (2 * n) as real
  {
  }

  /** The top of the wheel, where the needle points, `m` whole turns on. */
  function PointerAt(m: int): real {
    0.75 + m as real
  }

  /** Dividing by a positive number keeps the order against a bound scaled by it. */
  lemma DivBounds(a: real, b: real, c: real)
    requires c > 0.0
    ensures a / c < b <==> a < b * c
    ensures b <= a / c <==> b * c <= a
  {
  }

  /**
   * The needle names the slice drawn under it: slice `NeedleIndex(angle, n)` covers the top of
   * the wheel (three quarters of a turn, up to whole turns), its start excluded, its end included.
   */
  lemma NeedleIsUnderPointer(angle: real, n: nat)
    requires n >= 1
    requires 0.0 <= angle <= 1.0
    ensures var k := NeedleIndex(angle, n);
      0 <= k < n &&
      exists m: int :: ArcStart(angle, k, n) < PointerAt(m) <= ArcStart(angle, k + 1, n)
  {
    NeedleIndexInRange(angle, n);
    var nr := n as real;
    var x := (angle + 0.25) * nr;
    assert x == angle * nr + 0.25 * nr;
    var f := x.Floor;
    assert f as real <= x < f as real + 1.0;
    var k := NeedleIndex(angle, n);
    // m = 0 when the unwrapped index is already in range, m = 1 when one wrap was needed
    var m: int := if n - f - 1 < 0 then 1 else 0;
    if m == 1 {
      assert k == n - f - 1 + n;
      assert k as real == nr - f as real - 1.0 + nr;
    } else {
      assert k == n - f - 1;
      assert k as real == nr - f as real - 1.0;
    }
    assert (k + 1) as real == k as real + 1.0;
    DivBounds(k as real, PointerAt(m) - angle, nr);
    DivBounds((k + 1) as real, PointerAt(m) - angle, nr);
    assert (PointerAt(m) - angle) * nr == 0.75 * nr + m as real * nr - angle * nr;
    assert ArcStart(angle, k, n) < PointerAt(m) <= ArcStart(angle, k + 1, n);
  }

  /**
   * At the snapped angle for target `t` the needle reports `(t - n/4 - 1) mod n`, not `t`:
   * the snap puts slice `t` at the three o'clock position, a quarter turn away from the needle.
   * Only a one-segment wheel reports its target.
   */
  lemma NeedleAtSnapAngle(t: nat, n: nat)
    requires t < n
    ensures NeedleIndex(SnapAngle(t, n), n) == (t - n / 4 - 1) % n
    ensures NeedleIndex(SnapAngle(t, n), n) == t <==> n == 1
  {
    var nr := n as real;
    var q := n / 4;
    QuarterFloor(n);
    var y := (n - t) as real + nr / 4.0;
    SnapTimesCount(t, n);
    assert (SnapAngle(t, n) + 0.25) * nr == y;
    FloorOfWhole(y, n - t + q);
    var i: int := t - q - 1;
    assert NeedleIndex(SnapAngle(t, n), n) == if i < 0 then i + n else i;
    ModOneWrap(i, n);
  }

  /** A quarter of a whole number of segments, rounded down, is its integer quotient by 4. */
  lemma QuarterFloor(n: nat)
    ensures (n as real / 4.0).Floor == n / 4
    ensures (n / 4) as real <= n as real / 4.0 < (n / 4) as real + 1.0
  {
  }

  /** The snapped angle, scaled back by the segment count, is the whole number n - t. */
  lemma SnapTimesCount(t: nat, n: nat)
    requires t < n
    ensures (SnapAngle(t, n) + 0.25) * n as real == (n - t) as real + n as real / 4.0
  {
  }

  /** Euclidean remainder of a number within one period of zero. */
  lemma ModOneWrap(i: int, n: int)
    requires n >= 1
    requires -n <= i < n
    ensures i % n == if i < 0 then i + n else i
  {
  }

  /** A positive number divided by itself is one. */
  lemma DivSelf(c: real)
    requires c > 0.0
    ensures c / c == 1.0
  {
  }

  /** One drawn pie slice: the arc from `start` to `end` (in turns) and the label written on it. */
  datatype Slice = Slice(start: real, end: real, text: string)

  /**
   * The slice loop of the wheel drawing: slice `k` runs from where slice `k - 1` ended to
   * `angle + k/n` further on, and carries its truncated label. The slices are contiguous and
   * cover exactly one turn, starting at the wheel angle.
   */
  method WheelSlices(angle: real, labels: seq<string>) returns (slices: seq<Slice>)
    ensures |slices| == |labels|
    ensures forall k :: 0 <= k < |slices| ==>
      slices[k].start == ArcStart(angle, k, |labels|) &&
      slices[k].end == ArcStart(angle, k + 1, |labels|) &&
      slices[k].text == Truncated(labels[k])
    ensures forall k :: 0 <= k < |slices| - 1 ==> slices[k].end == slices[k + 1].start
    ensures |slices| >= 1 ==> slices[0].start == angle && slices[|slices| - 1].end == angle + 1.0
  {
    var n := |labels|;
    var lastAngle := angle;
    slices := [];
    for i := 1 to n + 1
      invariant |slices| == i - 1
      invariant n >= 1 ==> lastAngle == ArcStart(angle, i - 1, n)
      invariant forall k :: 0 <= k < i - 1 ==>
        slices[k].start == ArcStart(angle, k, n) &&
        slices[k].end == ArcStart(angle, k + 1, n) &&
        slices[k].text == Truncated(labels[k])
    {
      var next := i as real / n as real + angle;
      assert next == ArcStart(angle, i, n);
      slices := slices + [Slice(lastAngle, next, Truncated(labels[i - 1]))];
      lastAngle := next;
    }
    if n >= 1 {
      assert ArcStart(angle, 0, n) == angle;
      DivSelf(n as real);
    }
  }
}
