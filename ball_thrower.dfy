/**
  The ball thrower's PWM predictor: a throw distance in inches is mapped to a
  motor PWM by linear interpolation between measured points, clamped at both
  ends of the table.
*/
module BallThrower {
  import opened Common

  /** The measured PWM values and the distances (inches) they threw. */
  const PwmValues: seq<int> := [100, 200, 300, 400, 500, 600, 700, 800, 900]
  const Distances: seq<int> := [7, 16, 22, 31, 37, 42, 49, 52, 55]

  /** Consecutive measured distances increase. */
  lemma DistanceStep(k: int)
    requires 0 <= k < |Distances| - 1
    ensures Distances[k] < Distances[k + 1]
  {
  }

  /** The distance table increases strictly, comparing any two entries. */
  lemma {:induction false} DistancesIncrease(a: int, b: int)
    requires 0 <= a < b < |Distances|
    ensures Distances[a] < Distances[b]
    decreases b - a
  {
    DistanceStep(b - 1);
    if a < b - 1 {
      DistancesIncrease(a, b - 1);
    }
  }

  /** The same, stated for any pair of indices. */
  lemma DistancesOrdered(a: int, b: int)
    ensures 0 <= a <= b < |Distances| ==> Distances[a] <= Distances[b]
  {
    if 0 <= a < b < |Distances| {
      DistancesIncrease(a, b);
    }
  }

  /** The PWM table rises in steps of 100. */
  lemma PwmStep(i: int)
    requires 0 <= i < |PwmValues|
    ensures PwmValues[i] == 100 * (i + 1)
  {
  }

  /** Both tables increase strictly and have the same length. */
  lemma TablesIncrease()
    ensures |PwmValues| == |Distances| == 9
    ensures forall i, j :: 0 <= i < j < 9 ==> Distances[i] < Distances[j] && PwmValues[i] < PwmValues[j]
  {
    forall i, j | 0 <= i < j < 9
      ensures Distances[i] < Distances[j] && PwmValues[i] < PwmValues[j]
    {
      DistancesIncrease(i, j);
      PwmStep(i);
      PwmStep(j);
    }
  }

  /** A segment `i` (between points i-1 and i) brackets the target. */
  predicate Brackets(i: int, t: real)
  {
    1 <= i < |Distances| && Distances[i - 1] as real <= t <= Distances[i] as real
  }

  /** The interpolation formula over segment `i`, before `int()`. */
  function Interpolate(i: int, t: real): (r: real)
    requires 1 <= i < |Distances|
    // the segment's line passes through its left point
    ensures t == Distances[i - 1] as real ==> r == PwmValues[i - 1] as real
  {
    var d0, d1 := Distances[i - 1] as real, Distances[i] as real;
    var p0, p1 := PwmValues[i - 1] as real, PwmValues[i] as real;
    p0 + (t - d0) * (p1 - p0) / (d1 - d0)
  }

  /**
    The `for i in range(1, len(distances))` search from segment `i` on: the
    first bracketing segment's interpolated value, or `None` when the loop
    falls through.
  */
  function Scan(i: nat, t: real): (r: Option<int>)
    requires i >= 1
    ensures r.Some? ==> exists j :: i <= j < |Distances| && Brackets(j, t) && r.value == Trunc(Interpolate(j, t))
    ensures r.None? <==> forall j :: i <= j < |Distances| ==> !Brackets(j, t)
    decreases |Distances| - i
  {
    if i >= |Distances| then None
    else if Brackets(i, t) then Some(Trunc(Interpolate(i, t)))
    else Scan(i + 1, t)
  }

  /** `predict_pwm_interp(target_distance)`; `None` is Python's fall-through `None`. */
  function PredictPwm(t: real): (r: Option<int>)
    // clamped at both ends of the table
    ensures t <= 7.0 ==> r == Some(100)
    ensures t >= 55.0 ==> r == Some(900)
  {
    if t <= Distances[0] as real then Some(PwmValues[0])
    else if t >= Distances[|Distances| - 1] as real then Some(PwmValues[|PwmValues| - 1])
    else Scan(1, t)
  }

  /** The interpolation's offset `x * 100 / w` is monotone in `x`, and 100 at `x == w`. */
  lemma OffsetMonotone(x: real, y: real, w: real)
    requires 0.0 <= x <= y && w > 0.0
    ensures 0.0 <= x * 100.0 / w <= y * 100.0 / w
    ensures w * 100.0 / w == 100.0
  {
    assert x * 100.0 <= y * 100.0;
  }

  /** Inside a segment the formula stays between the segment's two PWM values, and rises with t. */
  lemma {:induction false} InterpolateBetween(i: int, t: real, t': real)
    requires Brackets(i, t) && Brackets(i, t') && t <= t'
    ensures PwmValues[i - 1] <= Trunc(Interpolate(i, t)) <= PwmValues[i]
    ensures Trunc(Interpolate(i, t)) <= Trunc(Interpolate(i, t'))
  {
    var d0, d1 := Distances[i - 1] as real, Distances[i] as real;
    var p0, p1 := PwmValues[i - 1] as real, PwmValues[i] as real;
    PwmStep(i - 1);
    PwmStep(i);
    assert p1 - p0 == 100.0;
    var w := d1 - d0;
    assert Interpolate(i, t) == p0 + (t - d0) * 100.0 / w;
    assert Interpolate(i, t') == p0 + (t' - d0) * 100.0 / w;
    OffsetMonotone(t - d0, t' - d0, w);
    OffsetMonotone(t' - d0, w, w);
    TruncMonotone(Interpolate(i, t), Interpolate(i, t'));
    TruncMonotone(p0, Interpolate(i, t));
    TruncMonotone(Interpolate(i, t), p1);
    TruncOfInteger(PwmValues[i - 1]);
    TruncOfInteger(PwmValues[i]);
  }

  /** Every target strictly inside the table lies in some segment. */
  lemma {:induction false} SomeSegmentBrackets(t: real)
    requires Distances[0] as real < t < Distances[|Distances| - 1] as real
    ensures exists j :: 1 <= j < |Distances| && Brackets(j, t)
  {
    var j := 1;
    while j < |Distances| - 1 && Distances[j] as real < t
      invariant 1 <= j < |Distances|
      invariant Distances[j - 1] as real <= t
    {
      j := j + 1;
    }
    assert Brackets(j, t);
  }

  /** The scan always returns: the predictor never gives `None`. */
  lemma PredictPwmTotal(t: real)
    ensures PredictPwm(t).Some?
  {
    if Distances[0] as real < t < Distances[|Distances| - 1] as real {
      SomeSegmentBrackets(t);
    }
  }

  /** The scan returns the first bracketing segment's value. */
  lemma {:induction false} ScanFirst(i: nat, j: int, t: real)
    requires 1 <= i <= j && Brackets(j, t)
    requires forall k :: i <= k < j ==> !Brackets(k, t)
    ensures Scan(i, t) == Some(Trunc(Interpolate(j, t)))
    decreases j - i
  {
    if i < j {
      ScanFirst(i + 1, j, t);
    }
  }

  /** The segment the predictor uses for a target inside the table. */
  function Segment(t: real): (j: int)
    requires Distances[0] as real < t < Distances[|Distances| - 1] as real
    ensures Brackets(j, t) && forall k :: 1 <= k < j ==> !Brackets(k, t)
    ensures PredictPwm(t) == Some(Trunc(Interpolate(j, t)))
  {
    SomeSegmentBrackets(t);
    FirstSegmentFrom(1, t)
  }

  /** The first bracketing segment from `i` on. */
  function FirstSegmentFrom(i: int, t: real): (j: int)
    requires 1 <= i && exists j :: i <= j < |Distances| && Brackets(j, t)
    ensures i <= j && Brackets(j, t) && forall k :: i <= k < j ==> !Brackets(k, t)
    ensures Scan(i, t) == Some(Trunc(Interpolate(j, t)))
    decreases |Distances| - i
  {
    if Brackets(i, t) then i else FirstSegmentFrom(i + 1, t)
  }

  /** At its right end, a segment's formula gives that point's PWM. */
  lemma InterpolateAtEnd(i: int)
    requires 1 <= i < |Distances|
    ensures Interpolate(i, Distances[i] as real) == PwmValues[i] as real
  {
    var d0, d1 := Distances[i - 1] as real, Distances[i] as real;
    assert PwmValues[i] - PwmValues[i - 1] == 100 && d1 - d0 > 0.0;
    assert (d1 - d0) * 100.0 / (d1 - d0) == 100.0;
  }

  /** No segment before segment `i` reaches the distance `Distances[i]`. */
  lemma NoEarlierBracket(i: int, t: real)
    requires 1 <= i < |Distances| && t == Distances[i] as real
    ensures forall k :: 1 <= k < i ==> !Brackets(k, t)
  {
    forall k | 1 <= k < i
      ensures !Brackets(k, t)
    {
      DistancesIncrease(k, i);
    }
  }

  /** At a measured distance the prediction is exactly the measured PWM. */
  lemma PredictPwmAtTable(i: int)
    requires 0 <= i < |Distances|
    ensures PredictPwm(Distances[i] as real) == Some(PwmValues[i])
  {
    if 0 < i < |Distances| - 1 {
      NoEarlierBracket(i, Distances[i] as real);
      ScanFirst(1, i, Distances[i] as real);
      InterpolateAtEnd(i);
      TruncOfInteger(PwmValues[i]);
    }
  }

  /** The prediction always lies within the PWM table's range. */
  lemma PredictPwmInRange(t: real)
    ensures 100 <= PredictPwm(t).value <= 900
  {
    PredictPwmTotal(t);
    if Distances[0] as real < t < Distances[|Distances| - 1] as real {
      var j := Segment(t);
      InterpolateBetween(j, t, t);
      PwmStep(j - 1);
      PwmStep(j);
    }
  }

  /** A farther target is never served by an earlier segment. */
  lemma SegmentOrder(t: real, t': real)
    requires Distances[0] as real < t <= t' < Distances[|Distances| - 1] as real
    ensures Segment(t) <= Segment(t')
  {
    var j, j' := Segment(t), Segment(t');
    DistancesOrdered(j', j - 1);
    ghost var earlier := Brackets(j', t);
    if j' < j {
      assert false;
    }
  }

  /** A farther target never gets a smaller PWM. */
  lemma PredictPwmMonotone(t: real, t': real)
    requires t <= t'
    ensures PredictPwm(t).value <= PredictPwm(t').value
  {
    PredictPwmInRange(t);
    PredictPwmInRange(t');
    var lo, hi := Distances[0] as real, Distances[|Distances| - 1] as real;
    if lo < t && t' < hi {
      var j, j' := Segment(t), Segment(t');
      SegmentOrder(t, t');
      if j == j' {
        InterpolateBetween(j, t, t');
      } else {
        InterpolateBetween(j, t, t);
        InterpolateBetween(j', t', t');
        PwmStep(j);
        PwmStep(j' - 1);
      }
    }
  }
}
