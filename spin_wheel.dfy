/**
 * The canvas prize wheel component: weighted selection of a target segment, and the spin
 * controller whose state the spin trigger and the animation-timer tick update.
 */
module SpinWheel {
  import opened Optional
  import opened Cumulative
  import opened WheelGeometry

  /** A configured segment: its label, an optional colour and an optional weight (default 1). */
  datatype Segment = Segment(segmentText: string, segColor: Option<string>, weight: Option<real>)

  /** The labels the wheel draws and reports: the segment texts with empty ones filtered out. */
  function TextArray(segments: seq<Segment>): seq<string> {
    if segments == [] then []
    else (if segments[0].segmentText != "" then [segments[0].segmentText] else [])
         + TextArray(segments[1..])
  }

  predicate AllLabelled(segments: seq<Segment>) {
    forall i :: 0 <= i < |segments| ==> segments[i].segmentText != ""
  }

  /** When every segment has a label, the label array lines up with the segments index by index. */
  lemma {:induction false} TextArrayAllLabelled(segments: seq<Segment>)
    requires AllLabelled(segments)
    ensures |TextArray(segments)| == |segments|
    ensures forall i :: 0 <= i < |segments| ==> TextArray(segments)[i] == segments[i].segmentText
  {
    if segments != [] {
      TextArrayAllLabelled(segments[1..]);
    }
  }

  /** The selection weights, one per segment, a missing weight counting as 1. */
  function Weights(segments: seq<Segment>): seq<real> {
    seq(|segments|, i requires 0 <= i < |segments| => segments[i].weight.GetOr(1.0))
  }

  /**
   * The segment a spin targets for the uniform draw `u`: the draw is scaled by the total
   * weight and the first segment whose running total reaches it is chosen, 0 when none does.
   */
  function DrawnTarget(segments: seq<Segment>, u: real): nat {
    FirstReaching(Weights(segments), u * Total(Weights(segments))).GetOr(0)
  }

  /**
   * The weighted draw of the spin trigger: default the weights, total them, scale the uniform
   * draw `u`, then run the accumulate-and-break loop.
   */
  method SelectSegment(segments: seq<Segment>, u: real) returns (selectedIndex: nat)
    ensures selectedIndex == DrawnTarget(segments, u)
    ensures |segments| >= 1 ==> selectedIndex < |segments|
  {
    var weights := Weights(segments);
    var totalWeight := Total(weights);
    var rand := u * totalWeight;
    selectedIndex := AccumulateUntilReached(weights, rand);
    assert |weights| == |segments|;
    assert selectedIndex == DrawnTarget(segments, u) by {
      assert weights == Weights(segments) && rand == u * Total(Weights(segments));
    }
  }

  /**
   * The accumulate-and-break loop: add the weights left to right and stop at the first index
   * whose running total reaches `rand`; 0 when the loop falls through.
   */
  method AccumulateUntilReached(weights: seq<real>, rand: real) returns (selectedIndex: nat)
    ensures selectedIndex == FirstReaching(weights, rand).GetOr(0)
    ensures |weights| >= 1 ==> selectedIndex < |weights|
  {
    var accumulated := 0.0;
    selectedIndex := 0;
    for i := 0 to |weights|
      invariant accumulated == Prefix(weights, i)
      invariant forall m :: 1 <= m <= i ==> Prefix(weights, m) < rand
    {
      accumulated := accumulated + weights[i];
      if rand <= accumulated {
        selectedIndex := i;
        FirstReachingIff(weights, rand, i);
        return;
      }
    }
    FirstReachingIff(weights, rand, 0);
  }

  /**
   * With non-negative total weight every draw lands on a segment by the first-reaching rule:
   * the fall-through default 0 is never what decides the target.
   */
  lemma DrawIsReached(segments: seq<Segment>, u: real)
    requires |segments| >= 1
    requires 0.0 <= u < 1.0
    requires 0.0 <= Total(Weights(segments))
    ensures IsFirstReaching(Weights(segments), u * Total(Weights(segments)), DrawnTarget(segments, u))
  {
    var w := Weights(segments);
    assert u * Total(w) <= Total(w);
    ReachedWithinTotal(w, u * Total(w));
  }

  /** Peak angular speed of a spin, π / n radians per tick: half a segment, in turns. */
  function MaxSpeed(n: nat): (r: real)
    requires n >= 1
    ensures 0.0 < r
    ensures r * (2 * n) as real == 1.0
  {
    1.0 / (2 * n) as real
  }

  /** The three stages of a spin, by elapsed time. */
  datatype Phase = Accelerating | Decelerating | Done

  /**
   * The stage of a spin `elapsed` milliseconds in: accelerating before `upTime`; after it the
   * deceleration progress `(elapsed - upTime) / downTime` is computed and the spin is done once
   * that progress reaches 1.
   */
  function PhaseAt(elapsed: int, upTime: int, downTime: int): (p: Phase)
    requires downTime > 0
    ensures p == Accelerating <==> elapsed < upTime
    ensures p == Done <==> elapsed >= upTime + downTime
  {
    if elapsed < upTime then Accelerating
    else if (elapsed - upTime) as real / downTime as real >= 1.0 then Done
    else Decelerating
  }

  /**
   * The wheel's spin controller. Fields are the component's state and closure variables;
   * `timerArmed` stands for a held interval handle and `reported` records, in order, every
   * label handed to the completion callback.
   */
  class SpinController {
    const segments: seq<Segment>
    const labels: seq<string>
    const isOnlyOnce: bool
    const upTime: int
    const downTime: int

    var isFinished: bool
    var isStarted: bool
    var needleText: string
    var target: Option<nat>
    var timerArmed: bool
    var spinStart: int
    var frames: nat
    var maxSpeed: real
    var angleCurrent: real
    var angleDelta: real
    var reported: seq<string>

    ghost predicate Valid()
      reads this
    {
      && |segments| >= 1
      && |labels| == |segments|
      && upTime >= 0 && downTime > 0
      && 0.0 <= angleCurrent <= 1.0
      && (target.Some? ==> target.value < |segments|)
      && (timerArmed ==> target.Some? && !isFinished && maxSpeed == MaxSpeed(|labels|))
    }

    /** A wheel at rest with no target; both durations are scaled by the number of segments. */
    constructor (segments: seq<Segment>, isOnlyOnce: bool, upDuration: nat, downDuration: nat)
      requires |segments| >= 1
      requires AllLabelled(segments)
      requires downDuration > 0
      ensures Valid()
      ensures this.segments == segments && this.isOnlyOnce == isOnlyOnce
      ensures labels == TextArray(segments)
      ensures upTime == |segments| * upDuration && downTime == |segments| * downDuration
      ensures !isFinished && !isStarted && needleText == "" && target == None && !timerArmed
      ensures spinStart == 0 && frames == 0 && maxSpeed == MaxSpeed(|segments|)
      ensures angleCurrent == 0.0 && angleDelta == 0.0 && reported == []
    {
      TextArrayAllLabelled(segments);
      this.segments := segments;
      labels := TextArray(segments);
      this.isOnlyOnce := isOnlyOnce;
      upTime := |segments| * upDuration;
      downTime := |segments| * downDuration;
      isFinished, isStarted, needleText, target := false, false, "", None;
      timerArmed, spinStart, frames := false, 0, 0;
      maxSpeed := MaxSpeed(|segments|);
      angleCurrent, angleDelta := 0.0, 0.0;
      reported := [];
    }

    /**
     * The spin trigger, with `u` the uniform draw and `now` the clock. Refused once a spin-once
     * wheel has finished; otherwise it marks the wheel started, draws a new target, and arms the
     * timer only when none is held (a held timer keeps its start time, frame count and speed).
     */
    method Spin(u: real, now: int)
      requires Valid()
      requires 0.0 <= u < 1.0
      modifies this
      ensures Valid()
      ensures old(isFinished && isOnlyOnce) ==> unchanged(this)
      ensures !old(isFinished && isOnlyOnce) ==>
        && isStarted && !isFinished && timerArmed
        && target == Some(DrawnTarget(segments, u))
        && (old(timerArmed) ==> spinStart == old(spinStart) && frames == old(frames) && maxSpeed == old(maxSpeed))
        && (!old(timerArmed) ==> spinStart == now && frames == 0 && maxSpeed == MaxSpeed(|labels|))
        && angleCurrent == old(angleCurrent) && angleDelta == old(angleDelta)
        && needleText == old(needleText) && reported == old(reported)
    {
      if isFinished && isOnlyOnce {
        return;
      }
      var selectedIndex := SelectSegment(segments, u);
      isStarted := true;
      isFinished := false;
      target := Some(selectedIndex);
      if !timerArmed {
        spinStart := now;
        maxSpeed := MaxSpeed(|labels|);
        frames := 0;
        timerArmed := true;
      }
    }

    /**
     * One timer tick at clock `now`, with `ease` the easing factor of the velocity curve (the
     * sine term, never negative before the spin's end). The needle is read at the angle drawn
     * this frame; the angle then advances by `maxSpeed * ease` and is wrapped below one turn.
     * On the final tick the wheel finishes, snaps to the target's angle, reports the target's
     * label once, and releases the timer.
     */
    method Tick(now: int, ease: real)
      requires Valid()
      requires timerArmed
      requires now - spinStart < upTime + downTime ==> 0.0 <= ease
      modifies this
      ensures Valid()
      ensures frames == old(frames) + 1
      ensures spinStart == old(spinStart) && target == old(target) && maxSpeed == old(maxSpeed)
      ensures isStarted == old(isStarted)
      ensures isFinished <==> now - spinStart >= upTime + downTime
      ensures timerArmed <==> !isFinished
      ensures !isFinished ==>
        && angleDelta == maxSpeed * ease
        && angleCurrent == Wrapped(old(angleCurrent) + angleDelta)
        && needleText == labels[NeedleIndex(old(angleCurrent), |labels|)]
        && reported == old(reported)
      ensures isFinished ==>
        && angleDelta == 0.0
        && angleCurrent == SnapAngle(target.value, |labels|)
        && needleText == labels[target.value]
        && reported == old(reported) + [labels[target.value]]
    {
      frames := frames + 1;
      NeedleIndexInRange(angleCurrent, |labels|);
      needleText := labels[NeedleIndex(angleCurrent, |labels|)];

      var phase := PhaseAt(now - spinStart, upTime, downTime);
      var drawnAngle := angleCurrent;
      angleDelta := maxSpeed * ease;
      angleCurrent := WrapTurns(angleCurrent + angleDelta);
      if phase != Done {
        assert 0.0 <= angleDelta;
        WrappedWithinOneTurn(drawnAngle + angleDelta);
      }

      if phase == Done {
        isFinished := true;
        if target.Some? {
          var t := target.value;
          SnapAngleInRange(t, |labels|);
          angleCurrent := SnapAngle(t, |labels|);
          needleText := labels[t];
          reported := reported + [labels[t]];
        }
        timerArmed := false;
        angleDelta := 0.0;
      }
    }
  }
}
