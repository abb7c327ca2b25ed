/**
  The follow-me receiver: each MQTT message carries a distance error and a
  position error; a PI loop per error turns them into a forward speed and a
  turn rate, which are mixed into left and right wheel speeds. Arithmetic is
  over exact reals.
*/
module FollowMe {
  import opened Common
  import opened Json

  /** `FREQ`, the sample rate in Hz that scales the position integrator. */
  const Freq: real := 100.0
  const KpD: real := 2000.0
  const KiD: real := 0.5
  const KpP: real := 0.4
  const KiP: real := 0.1
  const SpeedLimit: real := 70.0
  const TurnLimit: real := 29.0
  /** Full scale of `duty_u16`. */
  const DutyFullScale: real := 65535.0

  /** `get_direction`: 1 for forward, 0 for backward. */
  function Direction(num: real): (d: int)
    ensures d == 1 <==> num >= 0.0
    ensures d == 0 <==> num < 0.0
  {
    if num >= 0.0 then 1 else 0
  }

  /** The two PWM duties (`M1`, `M2`) of one motor. */
  datatype Duties = Duties(m1: int, m2: int)

  /** `Motor.start(direction, speed)`: the duty goes on M1 when `direction` is truthy, on M2 otherwise. */
  function StartDuties(direction: int, speed: real): (d: Duties)
    ensures d.m1 == 0 || d.m2 == 0
    ensures direction != 0 ==> d.m2 == 0 && d.m1 == Trunc(speed * DutyFullScale / 100.0)
    ensures direction == 0 ==> d.m1 == 0 && d.m2 == Trunc(speed * DutyFullScale / 100.0)
    ensures 0.0 <= speed <= 100.0 ==> 0 <= d.m1 <= 65535 && 0 <= d.m2 <= 65535
  {
    var duty := Trunc(speed * DutyFullScale / 100.0);
    if direction != 0 then Duties(duty, 0) else Duties(0, duty)
  }

  /** The running sums `total_dist_e` and `total_pos_e`. */
  datatype Integrators = Integrators(dist: real, pos: real)

  /** The PI integrators after one sample: the distance sum is untimed, the position sum is scaled by 1/FREQ. */
  function Accumulate(st: Integrators, distE: real, posE: real): (next: Integrators)
    ensures next.dist - st.dist == distE
    ensures next.pos - st.pos == posE / Freq
  {
    Integrators(st.dist + distE, st.pos + posE * (1.0 / Freq))
  }

  /** What one `calc_motion` call commands. */
  datatype MotionCommand = MotionCommand(speed: real, turn: real, left: real, right: real)

  /** The unclamped PI outputs; the integral terms already include the current sample. */
  function RawSpeed(st: Integrators, distE: real): (r: real)
    ensures r == KpD * distE + KiD * (st.dist + distE)
  {
    KpD * distE + KiD * Accumulate(st, distE, 0.0).dist
  }

  function RawTurn(st: Integrators, posE: real): (r: real)
    ensures r == KpP * posE + KiP * (st.pos + posE / Freq)
  {
    KpP * posE + KiP * Accumulate(st, 0.0, posE).pos
  }

  /** The command `calc_motion` computes from the integrators before the call and one sample. */
  function Law(st: Integrators, distE: real, posE: real): (c: MotionCommand)
    ensures -SpeedLimit <= c.speed <= SpeedLimit
    ensures -TurnLimit <= c.turn <= TurnLimit
    ensures -SpeedLimit <= RawSpeed(st, distE) <= SpeedLimit ==> c.speed == RawSpeed(st, distE)
    ensures -TurnLimit <= RawTurn(st, posE) <= TurnLimit ==> c.turn == RawTurn(st, posE)
    ensures RawSpeed(st, distE) > SpeedLimit ==> c.speed == SpeedLimit
    ensures RawSpeed(st, distE) < -SpeedLimit ==> c.speed == -SpeedLimit
    ensures RawTurn(st, posE) > TurnLimit ==> c.turn == TurnLimit
    ensures RawTurn(st, posE) < -TurnLimit ==> c.turn == -TurnLimit
    // differential mixing
    ensures c.left + c.right == 2.0 * c.speed && c.right - c.left == 2.0 * c.turn
    ensures -99.0 <= c.left <= 99.0 && -99.0 <= c.right <= 99.0
  {
    var speed := ClampReal(RawSpeed(st, distE), -SpeedLimit, SpeedLimit);
    var turn := ClampReal(RawTurn(st, posE), -TurnLimit, TurnLimit);
    MotionCommand(speed, turn, speed - turn, speed + turn)
  }

  /** The worked example: zero integrators, a 0.02 distance error and a -5 position error. */
  lemma WorkedExample()
    ensures Law(Integrators(0.0, 0.0), 0.02, -5.0) == MotionCommand(40.01, -2.005, 42.015, 38.005)
    ensures Accumulate(Integrators(0.0, 0.0), 0.02, -5.0) == Integrators(0.02, -0.05)
  {
    assert RawSpeed(Integrators(0.0, 0.0), 0.02) == 40.01;
    assert RawTurn(Integrators(0.0, 0.0), -5.0) == -2.005;
  }

  /** Each wheel's duties lie in the `duty_u16` range, since mixing keeps |left|, |right| <= 99. */
  lemma WheelDutiesInRange(st: Integrators, distE: real, posE: real)
    ensures var c := Law(st, distE, posE);
      var l := StartDuties(Direction(c.left), AbsReal(c.left));
      var r := StartDuties(Direction(c.right), AbsReal(c.right));
      0 <= l.m1 <= 65535 && 0 <= l.m2 <= 65535 && 0 <= r.m1 <= 65535 && 0 <= r.m2 <= 65535
  {
  }

  /** The integrators after `n` calls with the same errors. */
  function Repeat(st: Integrators, distE: real, posE: real, n: nat): Integrators
    decreases n
  {
    if n == 0 then st else Accumulate(Repeat(st, distE, posE, n - 1), distE, posE)
  }

  /** No anti-windup: `n` identical samples add exactly `n` times their contribution. */
  lemma {:induction false} RepeatClosedForm(st: Integrators, distE: real, posE: real, n: nat)
    ensures Repeat(st, distE, posE, n) == Integrators(st.dist + (n as real) * distE, st.pos + (n as real) * posE / Freq)
    decreases n
  {
    if n > 0 {
      RepeatClosedForm(st, distE, posE, n - 1);
      assert (n as real) * distE == ((n - 1) as real) * distE + distE;
      assert (n as real) * posE / Freq == ((n - 1) as real) * posE / Freq + posE / Freq;
    }
  }

  /** Under a constant positive error both integrators grow strictly with every call. */
  lemma GrowsUnderConstantError(st: Integrators, distE: real, posE: real, n: nat)
    requires distE > 0.0 && posE > 0.0
    ensures Repeat(st, distE, posE, n + 1).dist > Repeat(st, distE, posE, n).dist
    ensures Repeat(st, distE, posE, n + 1).pos > Repeat(st, distE, posE, n).pos
  {
  }

  /** ... and without bound: any level is passed after enough calls. */
  lemma {:induction false} WindupUnbounded(st: Integrators, distE: real, posE: real, bound: real)
    requires distE > 0.0
    ensures exists n: nat :: Repeat(st, distE, posE, n).dist > bound
  {
    var gap := bound - st.dist;
    var n: nat := if gap < 0.0 then 0 else (gap / distE).Floor + 1;
    RepeatClosedForm(st, distE, posE, n);
    if gap >= 0.0 {
      assert (n as real) > gap / distE;
      assert (n as real) * distE > (gap / distE) * distE;
      assert (gap / distE) * distE == gap;
    }
  }

  /** One motor and the two duties it last wrote. */
  class Motor {
    var m1: int
    var m2: int

    constructor ()
      ensures m1 == 0 && m2 == 0
    {
      m1, m2 := 0, 0;
    }

    method Stop()
      modifies this
      ensures m1 == 0 && m2 == 0
    {
      m1 := 0;
      m2 := 0;
    }

    method Start(direction: int, speed: real)
      modifies this
      ensures Duties(m1, m2) == StartDuties(direction, speed)
    {
      var duty := Trunc(speed * DutyFullScale / 100.0);
      if direction != 0 {
        m1 := duty;
        m2 := 0;
      } else {
        m1 := 0;
        m2 := duty;
      }
    }
  }

  /** The follower: its two integrators and its two motors. */
  class Follower {
    var totalDistE: real
    var totalPosE: real
    const leftMotor: Motor
    const rightMotor: Motor

    ghost predicate Valid()
      reads this
    {
      leftMotor != rightMotor
    }

    function Sums(): Integrators
      reads this
    {
      Integrators(totalDistE, totalPosE)
    }

    constructor ()
      ensures Valid() && fresh(leftMotor) && fresh(rightMotor)
      ensures Sums() == Integrators(0.0, 0.0)
      ensures leftMotor.m1 == 0 && leftMotor.m2 == 0 && rightMotor.m1 == 0 && rightMotor.m2 == 0
    {
      leftMotor := new Motor();
      rightMotor := new Motor();
      totalDistE, totalPosE := 0.0, 0.0;
    }

    /** `calc_motion(dist_e, pos_e)`. */
    method CalcMotion(distE: real, posE: real)
      requires Valid()
      modifies this, leftMotor, rightMotor
      ensures Valid()
      ensures Sums() == Accumulate(old(Sums()), distE, posE)
      ensures var c := Law(old(Sums()), distE, posE);
        Duties(leftMotor.m1, leftMotor.m2) == StartDuties(Direction(c.left), AbsReal(c.left)) &&
        Duties(rightMotor.m1, rightMotor.m2) == StartDuties(Direction(c.right), AbsReal(c.right))
    {
      var kpDTerm := KpD * distE;
      totalDistE := totalDistE + distE;
      var kiDTerm := KiD * totalDistE;
      var speed := kpDTerm + kiDTerm;

      var kpPTerm := KpP * posE;
      totalPosE := totalPosE + posE * (1.0 / Freq);
      var kiPTerm := KiP * totalPosE;
      var turnRate := kpPTerm + kiPTerm;

      turnRate := ClampReal(turnRate, -TurnLimit, TurnLimit);
      speed := ClampReal(speed, -SpeedLimit, SpeedLimit);

      var leftSpeed := speed - turnRate;
      var rightSpeed := speed + turnRate;
      leftMotor.Start(Direction(leftSpeed), AbsReal(leftSpeed));
      rightMotor.Start(Direction(rightSpeed), AbsReal(rightSpeed));
    }

    /**
      `message_callback`: `msg` is the decoded payload, `None` when it does not
      decode. Missing errors default to 0. A non-numeric error raises inside
      `calc_motion`: a bad distance error before anything changes, a bad
      position error after the distance integrator has been updated.
    */
    method MessageCallback(msg: Option<Message>)
      requires Valid()
      modifies this, leftMotor, rightMotor
      ensures Valid()
      ensures msg.None? ==> Sums() == old(Sums()) && unchanged(leftMotor, rightMotor)
      ensures msg.Some? ==>
        var d := AsNumber(GetOr(msg.value, "distance_error", JInt(0)));
        var p := AsNumber(GetOr(msg.value, "position_error", JInt(0)));
        (d.None? ==> Sums() == old(Sums()) && unchanged(leftMotor, rightMotor)) &&
        (d.Some? && p.None? ==> Sums() == Integrators(old(totalDistE) + d.value, old(totalPosE)) && unchanged(leftMotor, rightMotor)) &&
        (d.Some? && p.Some? ==>
          Sums() == Accumulate(old(Sums()), d.value, p.value) &&
          var c := Law(old(Sums()), d.value, p.value);
          Duties(leftMotor.m1, leftMotor.m2) == StartDuties(Direction(c.left), AbsReal(c.left)) &&
          Duties(rightMotor.m1, rightMotor.m2) == StartDuties(Direction(c.right), AbsReal(c.right)))
    {
      if msg.None? {
        return;
      }
      var distE := AsNumber(GetOr(msg.value, "distance_error", JInt(0)));
      var posE := AsNumber(GetOr(msg.value, "position_error", JInt(0)));
      if distE.None? {
        return;
      }
      if posE.None? {
        totalDistE := totalDistE + distE.value;
        return;
      }
      CalcMotion(distE.value, posE.value);
    }
  }
}
