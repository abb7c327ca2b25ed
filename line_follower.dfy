/**
  The line follower: a colour sensor says whether the robot is on the line;
  on the line it drives straight, off the line it sweeps right for 3 s, then
  left for 10 s, then right again, until the line is found. Time is the
  millisecond tick counter, taken as a plain integer.
*/
module LineFollower {
  import opened Common

  /** The search state (`None`, "searching_right", "searching_left"). */
  datatype State = Idle | SearchingRight | SearchingLeft

  const RightSearchDuration: int := 3000
  const LeftSearchDuration: int := 10000
  const BaseSpeed: int := 150
  const SlowSearchSpeed: int := 100
  /** The right wheel's speed while searching left, a literal in the loop. */
  const LeftSearchSpeed: int := 130
  const MaxDuty: int := 1023

  /** One wheel's outputs: the direction pin (0 forward, 1 reverse) and the PWM duty. */
  datatype Wheel = Wheel(dir: int, duty: int)

  /** The signed speed a wheel's outputs stand for. */
  function SignedSpeed(w: Wheel): int
  {
    if w.dir == 0 then w.duty else -w.duty
  }

  /** `set_motor_dir` for one wheel. */
  function DirWheel(speed: int): (w: Wheel)
    ensures w.duty == Abs(speed)
    ensures w.dir == 1 <==> speed < 0
    ensures w.dir == 0 <==> speed >= 0
  {
    if speed >= 0 then Wheel(0, speed) else Wheel(1, -speed)
  }

  /** `set_motor_dir` loses nothing: the outputs give back the signed speed. */
  lemma DirWheelRoundTrip(speed: int)
    ensures SignedSpeed(DirWheel(speed)) == speed
  {
  }

  /** `set_motor` for one wheel, as written: the sign test runs on the value already made non-negative. */
  function ClampedWheel(speed: int): (w: Wheel)
    ensures w.dir == 0
    ensures 0 <= w.duty <= MaxDuty
    ensures w.duty == Min(Abs(speed), MaxDuty)
  {
    var duty := Abs(speed);
    var duty' := if duty <= MaxDuty then duty else MaxDuty;
    var duty'' := if duty' >= 0 then duty' else 0;
    Wheel(if duty'' >= 0 then 0 else 1, duty'')
  }

  /** As written, `set_motor` drives a reversing wheel forward. */
  lemma ClampedWheelIgnoresSign()
    ensures ClampedWheel(-50) == Wheel(0, 50)
    ensures SignedSpeed(ClampedWheel(-50)) != -50
  {
  }

  /** `set_motor` as its comment describes it: clamp the magnitude, keep the original sign. */
  function ClampedWheelIntended(speed: int): (w: Wheel)
    ensures 0 <= w.duty <= MaxDuty
    ensures w.duty == Min(Abs(speed), MaxDuty)
    ensures w.dir == 1 <==> speed < 0
  {
    Wheel(if speed >= 0 then 0 else 1, Min(Abs(speed), MaxDuty))
  }

  /** Within the duty range, the intended `set_motor` round-trips the signed speed; beyond it, it saturates. */
  lemma ClampedWheelIntendedRoundTrip(speed: int)
    ensures -MaxDuty <= speed <= MaxDuty ==> SignedSpeed(ClampedWheelIntended(speed)) == speed
    ensures speed > MaxDuty ==> SignedSpeed(ClampedWheelIntended(speed)) == MaxDuty
    ensures speed < -MaxDuty ==> SignedSpeed(ClampedWheelIntended(speed)) == -MaxDuty
  {
  }

  /** The search state and the time it was entered (`state`, `state_start_time`). */
  datatype Search = Search(state: State, start: int)

  function Duration(s: State): int
  {
    if s == SearchingRight then RightSearchDuration else LeftSearchDuration
  }

  function Flip(s: State): State
  {
    match s
    case SearchingRight => SearchingLeft
    case SearchingLeft => SearchingRight
    case Idle => Idle
  }

  /** One pass of the control loop's state update. */
  function Next(s: Search, onLine: bool, now: int): (t: Search)
    // on the line: not searching, timer untouched
    ensures onLine ==> t == Search(Idle, s.start)
    // off the line: always in one of the two search states
    ensures !onLine ==> t.state == SearchingRight || t.state == SearchingLeft
    // the first tick off the line starts the right search now
    ensures !onLine && s.state == Idle ==> t == Search(SearchingRight, now)
    // while searching, the direction flips exactly when the dwell has run out, and the timer restarts
    ensures !onLine && s.state != Idle ==>
      (if now - s.start >= Duration(s.state) then t == Search(Flip(s.state), now) else t == s)
  {
    if onLine then Search(Idle, s.start)
    else
      var entered := if s.state == Idle then Search(SearchingRight, now) else s;
      if now - entered.start >= Duration(entered.state) then Search(Flip(entered.state), now)
      else entered
  }

  /** The wheel command each state issues. */
  function Command(s: State): (c: (int, int))
    ensures s == Idle ==> c == (BaseSpeed, BaseSpeed)
    // searching right drives only the left wheel, slowly; searching left only the right wheel
    ensures s == SearchingRight ==> c == (SlowSearchSpeed, 0)
    ensures s == SearchingLeft ==> c == (0, LeftSearchSpeed)
    ensures s != Idle ==> (c.0 == 0) != (c.1 == 0) && c.0 >= 0 && c.1 >= 0
  {
    match s
    case Idle => (BaseSpeed, BaseSpeed)
    case SearchingRight => (SlowSearchSpeed, 0)
    case SearchingLeft => (0, LeftSearchSpeed)
  }

  /** A switch always goes to the other search direction. */
  lemma FlipAlternates(s: State)
    requires s != Idle
    ensures Flip(s) != s && Flip(s) != Idle && Flip(Flip(s)) == s
  {
  }

  /** A tick of the loop: the reading and the millisecond timestamp. */
  datatype Reading = Reading(onLine: bool, now: int)

  /** The search state after a sequence of ticks. */
  function Trace(s: Search, ticks: seq<Reading>): (t: Search)
    ensures |ticks| == 0 ==> t == s
    // the last reading decides whether the robot is searching
    ensures |ticks| > 0 ==> (t.state == Idle <==> ticks[|ticks| - 1].onLine)
    decreases |ticks|
  {
    if |ticks| == 0 then s
    else
      var last := ticks[|ticks| - 1];
      Next(Trace(s, ticks[..|ticks| - 1]), last.onLine, last.now)
  }

  const CycleLength: int := RightSearchDuration + LeftSearchDuration

  /** Off-line ticks at every millisecond from `t0`, `n + 1` of them. */
  function Sweep(s: Search, t0: int, n: nat): Search
    decreases n
  {
    if n == 0 then Next(s, false, t0) else Next(Sweep(s, t0, n - 1), false, t0 + n)
  }

  /** The off-line readings at every millisecond from `t0` to `t0 + n`. */
  function OffLineTicks(t0: int, n: nat): (r: seq<Reading>)
    ensures |r| == n + 1
    ensures forall k :: 0 <= k <= n ==> r[k] == Reading(false, t0 + k)
  {
    seq(n + 1, k => Reading(false, t0 + k))
  }

  /** Running the loop over those readings is exactly the sweep. */
  lemma {:induction false} TraceIsSweep(s: Search, t0: int, n: nat)
    ensures Trace(s, OffLineTicks(t0, n)) == Sweep(s, t0, n)
    decreases n
  {
    var ticks := OffLineTicks(t0, n);
    if n == 0 {
      assert ticks[..0] == [];
    } else {
      TraceIsSweep(s, t0, n - 1);
      assert ticks[..n] == OffLineTicks(t0, n - 1);
    }
  }

  /** Where the sweep stands `p` ms into its `q`-th cycle. */
  function SweepPosition(t0: int, q: nat, p: nat): Search
  {
    if p < RightSearchDuration then Search(SearchingRight, t0 + q * CycleLength)
    else Search(SearchingLeft, t0 + q * CycleLength + RightSearchDuration)
  }

  lemma {:induction false} SweepCycleAt(start: int, t0: int, q: nat, p: nat)
    requires p < CycleLength
    ensures Sweep(Search(Idle, start), t0, q * CycleLength + p) == SweepPosition(t0, q, p)
    decreases q, p
  {
    if p > 0 {
      SweepCycleAt(start, t0, q, p - 1);
    } else if q > 0 {
      SweepCycleAt(start, t0, q - 1, CycleLength - 1);
      assert (q - 1) * CycleLength + (CycleLength - 1) == q * CycleLength - 1;
    }
  }

  /**
    Started fresh and kept off the line, the robot searches right for exactly
    3000 ms, then left for exactly 10000 ms, and repeats this cycle for ever:
    at the tick `n` ms after the line was lost the phase is `n % 13000`.
  */
  lemma SweepCycle(start: int, t0: int, n: nat)
    ensures var phase := n % CycleLength;
      Sweep(Search(Idle, start), t0, n) ==
        if phase < RightSearchDuration then Search(SearchingRight, t0 + n - phase)
        else Search(SearchingLeft, t0 + n - phase + RightSearchDuration)
  {
    var q, p := n / CycleLength, n % CycleLength;
    assert n == q * CycleLength + p;
    SweepCycleAt(start, t0, q, p);
  }

  /** The same cycle, for the loop run over the off-line readings themselves. */
  lemma TraceCycle(start: int, t0: int, n: nat)
    ensures var phase := n % CycleLength;
      Trace(Search(Idle, start), OffLineTicks(t0, n)) ==
        if phase < RightSearchDuration then Search(SearchingRight, t0 + n - phase)
        else Search(SearchingLeft, t0 + n - phase + RightSearchDuration)
  {
    TraceIsSweep(Search(Idle, start), t0, n);
    SweepCycle(start, t0, n);
  }

  /** The robot: its search state and the outputs last written to its two wheels. */
  class Robot {
    var state: State
    var stateStart: int
    var left: Wheel
    var right: Wheel

    function Current(): Search
      reads this
    {
      Search(state, stateStart)
    }

    constructor ()
      ensures Current() == Search(Idle, 0)
      ensures left == Wheel(0, 0) && right == Wheel(0, 0)
    {
      state, stateStart := Idle, 0;
      left, right := Wheel(0, 0), Wheel(0, 0);
    }

    /** `set_motor_dir(left_speed, right_speed)`. */
    method SetMotorDir(leftSpeed: int, rightSpeed: int)
      modifies this`left, this`right
      ensures left == DirWheel(leftSpeed) && right == DirWheel(rightSpeed)
    {
      if leftSpeed >= 0 {
        left := Wheel(0, leftSpeed);
      } else {
        left := Wheel(1, -leftSpeed);
      }
      if rightSpeed >= 0 {
        right := Wheel(0, rightSpeed);
      } else {
        right := Wheel(1, -rightSpeed);
      }
    }

    /** `set_motor(left_speed, right_speed)`, as written. */
    method SetMotor(leftSpeed: int, rightSpeed: int)
      modifies this`left, this`right
      ensures left == ClampedWheel(leftSpeed) && right == ClampedWheel(rightSpeed)
      ensures left.dir == 0 && right.dir == 0
    {
      left := ClampedWheel(leftSpeed);
      right := ClampedWheel(rightSpeed);
    }

    /** One pass of the control loop; returns the wheel command it issued. */
    method Step(onLine: bool, now: int) returns (leftCmd: int, rightCmd: int)
      modifies this
      ensures Current() == Next(old(Current()), onLine, now)
      ensures (leftCmd, rightCmd) == Command(state)
      ensures left == DirWheel(leftCmd) && right == DirWheel(rightCmd)
    {
      if onLine {
        state := Idle;
        leftCmd, rightCmd := BaseSpeed, BaseSpeed;
        SetMotorDir(leftCmd, rightCmd);
      } else {
        if state == Idle {
          state := SearchingRight;
          stateStart := now;
        }
        var timeInState := now - stateStart;
        var currentSearchDuration := if state == SearchingRight then RightSearchDuration else LeftSearchDuration;
        if timeInState >= currentSearchDuration {
          if state == SearchingRight {
            state := SearchingLeft;
          } else if state == SearchingLeft {
            state := SearchingRight;
          }
          stateStart := now;
        }
        if state == SearchingRight {
          leftCmd, rightCmd := SlowSearchSpeed, 0;
        } else {
          leftCmd, rightCmd := 0, LeftSearchSpeed;
        }
        SetMotorDir(leftCmd, rightCmd);
      }
    }

    /** The KeyboardInterrupt handler: both wheels stop, whatever the state. */
    method Stop()
      modifies this`left, this`right
      ensures left == Wheel(0, 0) && right == Wheel(0, 0)
    {
      SetMotorDir(0, 0);
    }

    /**
      The main loop over the ticks it gets to run; `interrupted` says whether a
      KeyboardInterrupt then ends it.
    */
    method Run(ticks: seq<Reading>, interrupted: bool)
      modifies this
      ensures Current() == Trace(old(Current()), ticks)
      ensures interrupted ==> left == Wheel(0, 0) && right == Wheel(0, 0)
      ensures !interrupted && |ticks| > 0 ==>
        left == DirWheel(Command(state).0) && right == DirWheel(Command(state).1)
    {
      ghost var initial := Current();
      var i := 0;
      while i < |ticks|
        invariant 0 <= i <= |ticks|
        invariant Current() == Trace(initial, ticks[..i])
        invariant i > 0 ==> left == DirWheel(Command(state).0) && right == DirWheel(Command(state).1)
      {
        assert ticks[..i + 1][..i] == ticks[..i];
        var l, r := Step(ticks[i].onLine, ticks[i].now);
        i := i + 1;
      }
      assert ticks[..|ticks|] == ticks;
      if interrupted {
        Stop();
      }
    }
  }
}
