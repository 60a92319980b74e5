/**
 * The CSS prize wheel component: a fixed prize table whose probabilities are rescaled to
 * percentages, a weighted draw over them, and the small state machine of the spin button,
 * the result timer and the result dialog. Rotations are in degrees.
 */
module PrizeWheel {
  import opened Optional
  import opened Cumulative

  datatype Prize = Prize(id: int, name: string, color: string, probability: real, textColor: Option<string>)

  /** The prize table the component is built with. */
  function StandardPrizes(): seq<Prize> {
    [ Prize(1, "iPhone 16", "#FF6384", 1.0, Some("#fff")),
      Prize(2, "$100 Gift Card", "#36A2EB", 10.0, Some("#fff")),
      Prize(3, "$50 Gift Card", "#FFCE56", 15.0, Some("#333")),
      Prize(4, "10% Discount", "#4BC0C0", 30.0, Some("#fff")),
      Prize(5, "Free Spin", "#9966FF", 44.0, Some("#fff")) ]
  }

  function Probabilities(prizes: seq<Prize>): seq<real> {
    seq(|prizes|, i requires 0 <= i < |prizes| => prizes[i].probability)
  }

  function TotalProbability(prizes: seq<Prize>): real {
    Total(Probabilities(prizes))
  }

  predicate UniqueIds(prizes: seq<Prize>) {
    forall i, j :: 0 <= i < j < |prizes| ==> prizes[i].id != prizes[j].id
  }

  /** A prize table the component can spin: non-negative probabilities with a positive total, distinct ids. */
  predicate WellFormed(prizes: seq<Prize>) {
    NonNegative(Probabilities(prizes)) && TotalProbability(prizes) > 0.0 && UniqueIds(prizes)
  }

  lemma StandardPrizesWellFormed()
    ensures WellFormed(StandardPrizes())
    ensures TotalProbability(StandardPrizes()) == 100.0
  {
  }

  /**
   * The prize table with every probability rescaled to a percentage of the total. Only the
   * probabilities change, and each keeps its share of the total.
   */
  function Normalized(prizes: seq<Prize>): (r: seq<Prize>)
    requires TotalProbability(prizes) > 0.0
    ensures |r| == |prizes|
    ensures forall i :: 0 <= i < |r| ==> r[i] == prizes[i].(probability := r[i].probability)
    ensures forall i :: 0 <= i < |r| ==>
      r[i].probability * TotalProbability(prizes) == prizes[i].probability * 100.0
  {
    var total := TotalProbability(prizes);
    seq(|prizes|, i requires 0 <= i < |prizes| => prizes[i].(probability := prizes[i].probability / total * 100.0))
  }

  /** The rescaled probabilities sum to exactly 100 and stay non-negative. */
  lemma NormalizedSumsToHundred(prizes: seq<Prize>)
    requires TotalProbability(prizes) > 0.0
    ensures TotalProbability(Normalized(prizes)) == 100.0
    ensures NonNegative(Probabilities(prizes)) ==> NonNegative(Probabilities(Normalized(prizes)))
  {
    var total := TotalProbability(prizes);
    var w := Probabilities(prizes);
    var v := Probabilities(Normalized(prizes));
    var c := 100.0 / total;
    forall i | 0 <= i < |w|
      ensures v[i] == w[i] * c
    {
      assert v[i] * total == w[i] * 100.0;
    }
    PrefixScaled(w, v, c, |w|);
    assert total * c == 100.0;
  }

  /** The position of the prize a draw `random` (a percentage) selects: first reaching, else the last. */
  function SelectedPosition(prizes: seq<Prize>, random: real): nat
    requires TotalProbability(prizes) > 0.0
  {
    FirstReaching(Probabilities(Normalized(prizes)), random).GetOr(|prizes| - 1)
  }

  /**
   * The weighted draw: rescale, scale the uniform draw `u` to a percentage, and return the first
   * rescaled prize whose cumulative probability reaches it, falling back to the last prize.
   */
  method GetWeightedRandomPrize(prizes: seq<Prize>, u: real) returns (prize: Prize)
    requires TotalProbability(prizes) > 0.0
    ensures SelectedPosition(prizes, u * 100.0) < |prizes|
    ensures prize == Normalized(prizes)[SelectedPosition(prizes, u * 100.0)]
  {
    var normalizedPrizes := Normalized(prizes);
    var random := u * 100.0;
    var w := Probabilities(normalizedPrizes);
    assert SelectedPosition(prizes, random) == FirstReaching(w, random).GetOr(|prizes| - 1);
    var cumulativeProbability := 0.0;
    for i := 0 to |normalizedPrizes|
      invariant cumulativeProbability == Prefix(w, i)
      invariant forall m :: 1 <= m <= i ==> Prefix(w, m) < random
    {
      cumulativeProbability := cumulativeProbability + normalizedPrizes[i].probability;
      if random <= cumulativeProbability {
        FirstReachingIff(w, random, i);
        return normalizedPrizes[i];
      }
    }
    FirstReachingIff(w, random, 0);
    return normalizedPrizes[|normalizedPrizes| - 1];
  }

  /**
   * For a well-formed table and a draw in [0, 100) the selected prize is the first whose
   * cumulative percentage reaches the draw: the fall-back to the last prize is never needed.
   */
  lemma FallbackUnreachable(prizes: seq<Prize>, random: real)
    requires WellFormed(prizes)
    requires 0.0 <= random < 100.0
    ensures IsFirstReaching(Probabilities(Normalized(prizes)), random, SelectedPosition(prizes, random))
  {
    NormalizedSumsToHundred(prizes);
    ReachedWithinTotal(Probabilities(Normalized(prizes)), random);
  }

  /** `findIndex` by id: the first position holding `id`, or -1. */
  function IndexOfId(prizes: seq<Prize>, id: int): (i: int)
    ensures -1 <= i < |prizes|
    ensures 0 <= i ==> prizes[i].id == id && forall j :: 0 <= j < i ==> prizes[j].id != id
    ensures i == -1 ==> forall j :: 0 <= j < |prizes| ==> prizes[j].id != id
  {
    if prizes == [] then -1
    else if prizes[0].id == id then 0
    else
      var k := IndexOfId(prizes[1..], id);
      if k < 0 then -1 else k + 1
  }

  /** With distinct ids, looking a table entry up by its id finds its own position. */
  lemma IndexOfOwnId(prizes: seq<Prize>, k: nat)
    requires UniqueIds(prizes)
    requires k < |prizes|
    ensures IndexOfId(prizes, prizes[k].id) == k
  {
  }

  /** Rotation of segment `k` of `count`, in degrees. */
  function SegmentRotation(k: nat, count: nat): real
    requires count >= 1
  {
    360.0 / count as real * k as real
  }

  /** Skew applied to every segment so that it spans one segment angle, in degrees. */
  function SegmentSkew(count: nat): real
    requires count >= 1
  {
    90.0 - 360.0 / count as real
  }

  /**
   * The segments are laid out one segment angle apart, starting at 0, and the last one ends
   * where the first begins, a full circle on; the angle a skewed quadrant keeps, 90 degrees less
   * the skew, is the step between neighbouring rotations.
   */
  lemma SegmentsTileCircle(k: nat, count: nat)
    requires count >= 1
    requires k < count
    ensures SegmentRotation(0, count) == 0.0
    ensures 0.0 <= SegmentRotation(k, count) < 360.0
    ensures SegmentRotation(k + 1, count) == SegmentRotation(k, count) + 360.0 / count as real
    ensures SegmentRotation(count, count) == 360.0
    ensures 90.0 - SegmentSkew(count) == SegmentRotation(1, count)
  {
  }

  /** The component's state: the spin flag, the wheel's accumulated rotation, the result and its dialog, the spin counter. */
  class SpinningWheel {
    const prizes: seq<Prize>
    var isSpinning: bool
    var rotation: real
    var result: Option<Prize>
    var showResult: bool
    var spinCount: nat

    ghost predicate Valid()
      reads this
    {
      WellFormed(prizes)
    }

    constructor (prizes: seq<Prize>)
      requires WellFormed(prizes)
      ensures Valid() && this.prizes == prizes
      ensures !isSpinning && rotation == 0.0 && result == None && !showResult && spinCount == 0
    {
      this.prizes := prizes;
      isSpinning, rotation, result, showResult, spinCount := false, 0.0, None, false, 0;
    }

    /**
     * The spin button, with `u` the draw of the prize and `v` the draw of the extra turns.
     * Ignored while spinning; otherwise it starts the spin, hides the dialog, counts the spin,
     * records the drawn prize and turns the wheel on by `360 * extra + (segment angle - index)`.
     */
    method SpinWheel(u: real, v: real)
      requires Valid()
      requires 0.0 <= u < 1.0 && 0.0 <= v < 1.0
      modifies this
      ensures Valid()
      ensures old(isSpinning) ==> unchanged(this)
      ensures !old(isSpinning) ==>
        && isSpinning && !showResult && spinCount == old(spinCount) + 1
        && result == Some(Normalized(prizes)[SelectedPosition(prizes, u * 100.0)])
        && rotation == old(rotation) + 360.0 * (v * |prizes| as real)
                       + (360.0 / |prizes| as real - SelectedPosition(prizes, u * 100.0) as real)
    {
      if isSpinning {
        return;
      }
      isSpinning := true;
      showResult := false;
      result := None;
      spinCount := spinCount + 1;

      var selectedPrize := GetWeightedRandomPrize(prizes, u);
      result := Some(selectedPrize);

      var k := SelectedPosition(prizes, u * 100.0);
      IndexOfOwnId(prizes, k);
      var prizeIndex := IndexOfId(prizes, selectedPrize.id);
      var segmentAngle := 360.0 / |prizes| as real;
      var extraRotations := 1.0 * v * |prizes| as real;
      var targetAngle := 360.0 * extraRotations + (segmentAngle - prizeIndex as real);
      rotation := rotation + targetAngle;
    }

    /** The result timer, 3000 ms after a spin starts: the spin ends and the result dialog opens. */
    method SpinTimerExpires()
      requires Valid()
      requires isSpinning
      modifies this
      ensures Valid()
      ensures !isSpinning && showResult
      ensures rotation == old(rotation) && result == old(result) && spinCount == old(spinCount)
    {
      isSpinning := false;
      showResult := true;
    }

    /** The dialog's close button: hides the result and changes nothing else. */
    method CloseResult()
      requires Valid()
      modifies this
      ensures Valid()
      ensures !showResult
      ensures isSpinning == old(isSpinning) && rotation == old(rotation)
      ensures result == old(result) && spinCount == old(spinCount)
    {
      showResult := false;
    }
  }
}
