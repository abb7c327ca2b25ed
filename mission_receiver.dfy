/**
  The mission-control receiver: MQTT messages carry an accelerometer tilt,
  which drives two H-bridge motors with a dead zone and a current-limiting
  duty cap, and the LED and buzzer commands of the `Indicators` module.
*/
module MissionReceiver {
  import opened Common
  import opened Json
  import opened Indicators

  /** `MAX_DUTY`, the PWM cap that limits current draw. */
  const MaxDuty: int := 300
  /** The tilt sensitivity `scale`. */
  const TiltScale: real := 100.0
  const DeadZone: int := 10

  /** One H-bridge: the two input pins and the PWM duty. */
  datatype Bridge = Bridge(in1: int, in2: int, duty: int)

  /** The signed speed a bridge's outputs stand for. */
  function SignedDuty(b: Bridge): int
  {
    if b.in1 == 1 then b.duty else if b.in2 == 1 then -b.duty else 0
  }

  /** `set_motor` for one motor: the sign picks the pins, the duty is |int(speed)| capped at MAX_DUTY. */
  function SetMotorBridge(speed: real): (b: Bridge)
    ensures 0 <= b.duty <= MaxDuty
    ensures b.in1 == 1 <==> speed > 0.0
    ensures b.in2 == 1 <==> speed < 0.0
    ensures !(b.in1 == 1 && b.in2 == 1)
    ensures speed == 0.0 ==> b == Bridge(0, 0, 0)
    ensures speed != 0.0 ==> b.duty == Min(Abs(Trunc(speed)), MaxDuty)
  {
    var duty := Min(Abs(Trunc(speed)), MaxDuty);
    if speed > 0.0 then Bridge(1, 0, duty)
    else if speed < 0.0 then Bridge(0, 1, duty)
    else Bridge(0, 0, 0)
  }

  /** Up to the cap, an integer speed is carried exactly; beyond it, the motor saturates. */
  lemma SetMotorRoundTrip(speed: int)
    ensures -MaxDuty <= speed <= MaxDuty ==> SignedDuty(SetMotorBridge(speed as real)) == speed
    ensures speed > MaxDuty ==> SignedDuty(SetMotorBridge(speed as real)) == MaxDuty
    ensures speed < -MaxDuty ==> SignedDuty(SetMotorBridge(speed as real)) == -MaxDuty
  {
    TruncOfInteger(speed);
  }

  /** The speed `drive_from_tilt` derives from a tilt: `int(x * 100)`, zeroed when below 10 in magnitude. */
  function TiltSpeed(x: real): (r: int)
    ensures r == 0 || Abs(r) >= DeadZone
    ensures r != 0 ==> r == Trunc(x * TiltScale)
  {
    var raw := Trunc(x * TiltScale);
    if Abs(raw) < DeadZone then 0 else raw
  }

  /** The dead zone is exactly the open band -0.1 < x < 0.1. */
  lemma {:induction false} TiltSpeedDeadZone(x: real)
    ensures TiltSpeed(x) == 0 <==> -0.1 < x < 0.1
    ensures TiltSpeed(x) > 0 <==> x >= 0.1
  {
    var y := x * TiltScale;
    if x >= 0.1 {
      assert y >= 10.0;
      assert Trunc(y) >= 10;
    } else if x <= -0.1 {
      assert y <= -10.0;
      assert Trunc(y) <= -10;
    } else {
      assert -10.0 < y < 10.0;
      if y >= 0.0 {
        assert Trunc(y) < 10;
      } else {
        assert Trunc(y) > -10;
      }
    }
  }

  /** Tilting further never slows the motors down or reverses them. */
  lemma {:induction false} TiltSpeedMonotone(x: real, y: real)
    requires x <= y
    ensures TiltSpeed(x) <= TiltSpeed(y)
  {
    TruncMonotone(x * TiltScale, y * TiltScale);
    TiltSpeedDeadZone(x);
    TiltSpeedDeadZone(y);
  }

  /** What the accelerometer field of a message yields. */
  datatype TiltField = NoTilt | Tilt(x: real) | BadTilt

  /**
    `data["accel"]["x"]`, used as a number: absent when there is no "accel"
    key, bad (the handler raises) when "accel" is not an object with a numeric "x".
  */
  function ReadTilt(data: Message): (t: TiltField)
    ensures t.NoTilt? <==> "accel" !in data
    ensures t.Tilt? ==>
              data["accel"].JObj? && "x" in data["accel"].fields && AsNumber(data["accel"].fields["x"]) == Some(t.x)
    // and conversely, a numeric "x" is always read as that tilt
    ensures "accel" in data && data["accel"].JObj? && "x" in data["accel"].fields &&
            AsNumber(data["accel"].fields["x"]).Some? ==>
              t == Tilt(AsNumber(data["accel"].fields["x"]).value)
  {
    if "accel" !in data then NoTilt
    else
      var accel := data["accel"];
      if accel.JObj? && "x" in accel.fields && AsNumber(accel.fields["x"]).Some? then
        Tilt(AsNumber(accel.fields["x"]).value)
      else BadTilt
  }

  class MotorReceiver {
    var motorA: Bridge
    var motorB: Bridge
    /** The LED writes and buzzer pulses so far; here each LED write is a 0.5 s flash, dark again after it. */
    var effects: seq<Effect>

    constructor ()
      ensures motorA == Bridge(0, 0, 0) && motorB == Bridge(0, 0, 0) && effects == []
    {
      motorA, motorB := Bridge(0, 0, 0), Bridge(0, 0, 0);
      effects := [];
    }

    /** `set_motor(motor, speed)`: 'A' selects motor A, anything else motor B. */
    method SetMotor(motor: char, speed: real)
      modifies this`motorA, this`motorB
      ensures motor == 'A' ==> motorA == SetMotorBridge(speed) && motorB == old(motorB)
      ensures motor != 'A' ==> motorB == SetMotorBridge(speed) && motorA == old(motorA)
    {
      var duty := Min(Abs(Trunc(speed)), MaxDuty);
      var bridge: Bridge;
      if speed > 0.0 {
        bridge := Bridge(1, 0, duty);
      } else if speed < 0.0 {
        bridge := Bridge(0, 1, duty);
      } else {
        bridge := Bridge(0, 0, 0);
      }
      if motor == 'A' {
        motorA := bridge;
      } else {
        motorB := bridge;
      }
    }

    /** `drive_from_tilt(x)`: both motors get the same speed. */
    method DriveFromTilt(x: real)
      modifies this`motorA, this`motorB
      ensures motorA == motorB == SetMotorBridge(TiltSpeed(x) as real)
    {
      var rawSpeed := Trunc(x * TiltScale);
      if Abs(rawSpeed) < DeadZone {
        rawSpeed := 0;
      }
      SetMotor('A', rawSpeed as real);
      SetMotor('B', rawSpeed as real);
    }

    /**
      `sub_cb`: `msg` is the decoded payload, `None` when it does not decode.
      Only a usable "accel" field moves the motors; a bad one raises, which
      ends the handler before the LED and buzzer commands.
    */
    method SubCb(msg: Option<Message>)
      modifies this
      ensures msg.None? ==> motorA == old(motorA) && motorB == old(motorB) && effects == old(effects)
      ensures msg.Some? ==>
        match ReadTilt(msg.value)
        case NoTilt => motorA == old(motorA) && motorB == old(motorB) && effects == old(effects) + Reactions(msg.value)
        case BadTilt => motorA == old(motorA) && motorB == old(motorB) && effects == old(effects)
        case Tilt(x) =>
          motorA == motorB == SetMotorBridge(TiltSpeed(x) as real) && effects == old(effects) + Reactions(msg.value)
    {
      if msg.None? {
        return;
      }
      var data := msg.value;
      if "accel" in data {
        var tilt := ReadTilt(data);
        if tilt.BadTilt? {
          return;
        }
        DriveFromTilt(tilt.x);
      }
      if "color" in data {
        var pixel := PixelOf(data["color"]);
        if pixel.None? {
          return;
        }
        effects := effects + [Led(pixel.value)];
      }
      if "Buzzer" in data && Truthy(data["Buzzer"]) {
        effects := effects + [BuzzerPulse];
      }
    }
  }
}
