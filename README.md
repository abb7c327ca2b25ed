# Robot control rules, modelled in Dafny

The repository is a set of MicroPython scripts for small ESP32 robots. Without
their Wi-Fi, MQTT, HTTP and hardware calls, six of them hold control rules
small enough to state exactly. This project models those rules and proves
them.

- **Line follower** (`LineFollower.py`). A colour sensor says whether the
  robot is on the line. On the line it drives straight. Off the line it
  sweeps right for 3 s, then left for 10 s, and keeps alternating. Two
  wheel mappers turn speeds into direction pins and PWM duties.
- **Follow-me receiver** (`FollowMeeReceiver.py`). Each MQTT message carries
  a distance error and a position error. Two PI loops without anti-windup
  turn them into a clamped speed and a clamped turn rate. These are mixed
  into left and right wheel speeds and split into two PWM duties per motor.
- **Mission-control receiver** (`MissionControl_Receiver.py`). A tilt drives
  two H-bridge motors, with a dead zone and a duty cap of 300. Colour and
  buzzer commands flash the LED and pulse the buzzer.
- **Servo clock** (`clock.py`). A software clock ticks with carries and
  points a servo at the seconds. A button toggles it to a temperature mode.
  The clock is set by parsing an ISO-8601 datetime string.
- **Ball thrower** (`BallThrower.py`). A throw distance is turned into a
  motor PWM by linear interpolation over a measured table, clamped at both
  ends.
- **Mission-control controller** (`MissionControl_Controller.py`). Two
  buttons, each debounced on its own 200 ms window, publish an LED colour
  and a buzzer command. Incoming messages set the local LED and buzzer.

There is one module per script: `LineFollower`, `FollowMe`,
`MissionReceiver`, `Clock`, `BallThrower`, `MissionController`. Both
mission-control scripts handle the "color" and "Buzzer" keys with the same
dispatch, which the shared `Indicators` module defines once. They differ in
what an LED write does: the receiver flashes the LED for 0.5 s and then
turns it off, while the controller only sets it. Three more shared
modules model the Python semantics the scripts rely on:

- `Common`: `Option`, `abs`, `min`, and `int()` on a float, which truncates
  toward zero (`Common.Trunc`).
- `Json`: a decoded JSON value, Python truthiness, numeric use of a value
  (where `True`/`False` count as 1/0), and the NeoPixel byte store. A JSON
  number without a fraction or exponent decodes to an integer, any other
  to a float, so `JInt` and `JFloat` are kept apart.
- `Text`: `str.split` with a one-character separator, and `int()` on a
  string.

Where a script mutates state, the model is a class. Its fields are what the
script keeps: module globals, object attributes, and the values last written
to pins. Its methods are proved against pure functions, and the lemmas
prove properties of those functions.

Modelling choices:

- **Exact arithmetic.** Floats are exact `real`s. The millisecond tick
  counter is a plain `int`.
- **Inputs become parameters.**
  - A decoded MQTT payload is an `Option<Message>`; `None` means the
    payload did not decode.
  - An HTTP answer is an `Option` of the text or number it returned.
  - A sensor or button reading is a parameter.
- **Outputs are records.**
  - A publish is appended to a `published` sequence.
  - An LED write or buzzer pulse is appended to an `effects` sequence. On
    the receiver an LED write is a 0.5 s flash, dark again afterwards; on
    the controller it sets the LED.
- **Exceptions.** An exception inside a handler is modelled as ending that
  handler. Whatever the handler changed before the exception stays changed.

- **NeoPixel store.** `np[0] = color` writes its items into a byte buffer.
  MicroPython's store takes an integer's low 8 bits (so 256 is stored as 0
  and -1 as 255), takes `True`/`False` as 1/0, and raises TypeError for a
  float, even a whole one such as 225.0. CPython's `bytearray` would raise
  ValueError for an integer outside 0..255 instead; the model follows the
  MicroPython firmware the scripts run on.

Two places where the code does something other than what it appears to
intend are modelled as written:

- **Direction pin in `set_motor`.** The comment at `LineFollower.py:24`
  says the direction is set from the original sign. But the speeds were
  already replaced by their clamped magnitudes on lines 22-23, so
  `set_motor` always writes direction 0 (see Findings).
- **Bad position error.** The `except` at `FollowMeeReceiver.py:105-106`
  catches an error that `calc_motion` raises part-way through. A numeric
  `distance_error` followed by a non-numeric `position_error` raises at
  line 119, after line 114 has already updated `total_dist_e`.
  `FollowMe.Follower.MessageCallback` states this partial update.

## Model

| member | source | states |
|---|---|---|
| Common.Trunc | MissionControl_Receiver.py:66 | `int()` of a float: the integer between 0 and x, within 1 of x, by sign |
| Common.TruncTowardZero | MissionControl_Receiver.py:66 | `int()` never increases the magnitude, drops less than 1, and keeps the sign |
| Common.TruncMonotone | MissionControl_Receiver.py:66 | `int()` on floats is monotone |
| Common.TruncOfInteger | MissionControl_Receiver.py:48 | `int()` of a whole number is that number |
| Common.ClampReal | FollowMeeReceiver.py:125-127 | `max(min(x, hi), lo)` lies in [lo, hi], is x inside the range and saturates outside it |
| Json.AsNumber | FollowMeeReceiver.py:113-120 | a value used in arithmetic: any number, and a boolean as 1 or 0; anything else raises |
| Json.Truthy | MissionControl_Receiver.py:99 | a value is falsy exactly when it is `None`, `False`, 0, 0.0, or an empty string, list or dict |
| Json.GetOr | FollowMeeReceiver.py:102-103 | `data.get(key, default)` is the stored value for a present key, and the default otherwise |
| Json.ByteOf | MissionControl_Receiver.py:91 | a byte store keeps an integer's value modulo 256 (itself when in 0..255) and stores a boolean as 1 or 0 |
| Json.PixelOf | MissionControl_Receiver.py:90-91 | `np[0] = color` succeeds exactly for a list whose first three items are integers or booleans, and stores each as its byte |
| Json.FloatColourRefused | MissionControl_Receiver.py:91 | the colour [0, 0, 225.0] is refused, while [0, 0, 225] gives (0, 0, 225) |
| Indicators.Reactions | MissionControl_Receiver.py:88-103 | at most two effects, an LED write before a buzzer pulse; the LED is written exactly when the colour is usable, and with that colour; the buzzer pulses exactly when "Buzzer" is truthy and no unusable colour raised first |
| Indicators.ColorAndBuzzer | MissionControl_Receiver.py:88-103 | a usable colour and a truthy buzzer flag give exactly the LED write, then the pulse |
| Indicators.NoKeysNoEffects | MissionControl_Controller.py:72-77 | a message with neither key does nothing |
| Text.Split | clock.py:29-30 | `str.split(c)` gives at least one piece, and no piece contains c |
| Text.JoinSplit | clock.py:29-30 | joining the pieces of a split with the separator gives back the string |
| Text.SplitNoSeparator | clock.py:29 | a string without the separator splits into itself alone |
| Text.SplitPrefix | clock.py:29 | splitting `a + b`, with a free of the separator, only extends the first piece |
| Text.SplitAtFirst | clock.py:29-30 | a split at the first separator gives the text before it, then the pieces of the rest |
| Text.SplitFirstIsPrefix | clock.py:29 | the first piece is a prefix of the string, followed by the separator or the end |
| Text.ParseInt | clock.py:30 | `int(s)` succeeds exactly for an optional sign followed by at least one digit |
| Text.ParseNatToString | clock.py:30 | `int()` reads back any number's decimal text |
| Text.ParseTwoDigits | clock.py:30 | `int()` reads back a two-digit field |
| LineFollower.DirWheel | LineFollower.py:30-43 | `set_motor_dir`: direction pin 1 exactly for a negative speed, duty the magnitude |
| LineFollower.DirWheelRoundTrip | LineFollower.py:30-43 | the pin and duty written by `set_motor_dir` give back the signed speed |
| LineFollower.ClampedWheel | LineFollower.py:20-26 | `set_motor` as written: duty `min(abs(speed), 1023)`, direction pin always 0 |
| LineFollower.ClampedWheelIgnoresSign | LineFollower.py:20-26 | as written, a speed of -50 is driven forward at duty 50 |
| LineFollower.ClampedWheelIntended | LineFollower.py:20-26 | `set_motor` as its comment describes it: clamped duty, direction from the original sign |
| LineFollower.ClampedWheelIntendedRoundTrip | LineFollower.py:20-26 | the intended mapper carries any speed within ±1023 exactly and saturates beyond it |
| LineFollower.Next | LineFollower.py:62-87 | on the line: not searching, timer kept; first loss: search right from now; while searching: flip exactly when the dwell (3000 ms right, 10000 ms left) has run out, restarting the timer; off the line always a search state |
| LineFollower.Command | LineFollower.py:62-99 | straight at 150/150 on the line; searching right gives (100, 0) and searching left (0, 130): one wheel still and neither reversing |
| LineFollower.FlipAlternates | LineFollower.py:80-85 | a switch always goes to the other search direction, and two switches come back |
| LineFollower.Trace | LineFollower.py:58-87 | after a run of ticks the robot is searching exactly when the last reading was off the line; no ticks change nothing |
| LineFollower.OffLineTicks | LineFollower.py:58-63 | the readings of a robot kept off the line, one per millisecond |
| LineFollower.TraceIsSweep | LineFollower.py:58-87 | the loop run over millisecond off-line readings is the sweep |
| LineFollower.TraceCycle | LineFollower.py:58-87 | the loop itself, kept off the line, follows the 3000 ms right, 10000 ms left cycle |
| LineFollower.SweepCycleAt | LineFollower.py:69-87 | kept off the line, q cycles and p ms into the next one the robot is at the corresponding phase of the sweep |
| LineFollower.SweepCycle | LineFollower.py:69-87 | kept off the line, the robot searches right for 3000 ms, then left for 10000 ms, periodically with period 13000 ms |
| LineFollower.Robot.constructor | LineFollower.py:48-49 | starts not searching, with timer 0 |
| LineFollower.Robot.SetMotorDir | LineFollower.py:30-43 | both wheels get the `set_motor_dir` outputs |
| LineFollower.Robot.SetMotor | LineFollower.py:20-29 | both wheels get the as-written `set_motor` outputs, direction 0 on both |
| LineFollower.Robot.Step | LineFollower.py:58-99 | one tick: the new state is `Next` of the old one, and the command issued is that state's command, written through `set_motor_dir` |
| LineFollower.Robot.Stop | LineFollower.py:103-107 | the interrupt handler stops both wheels |
| LineFollower.Robot.Run | LineFollower.py:58-107 | the loop's state after a run of ticks is their `Trace`; an interrupt leaves both wheels stopped |
| FollowMe.Direction | FollowMeeReceiver.py:94-96 | `get_direction` is 1 exactly when num >= 0, else 0 |
| FollowMe.StartDuties | FollowMeeReceiver.py:20-28 | `Motor.start` drives exactly one pin: M1 when direction is truthy, M2 otherwise, with duty `int(speed*65535/100)` in 0..65535 for speed in 0..100 |
| FollowMe.Accumulate | FollowMeeReceiver.py:113-120 | the distance integrator grows by the distance error; the position integrator grows by the position error divided by FREQ = 100 |
| FollowMe.RawSpeed | FollowMeeReceiver.py:113-116 | the unclamped speed is the P term plus the I term over the integrator including the current sample |
| FollowMe.RawTurn | FollowMeeReceiver.py:119-122 | the unclamped turn is the P term plus the I term over the integrator including the current sample divided by FREQ |
| FollowMe.Law | FollowMeeReceiver.py:112-134 | speed is the PI output including the current sample clamped to ±70; turn likewise clamped to ±29; left + right = 2·speed, right − left = 2·turn, and both wheels within ±99 |
| FollowMe.WorkedExample | FollowMeeReceiver.py:112-134 | from zero integrators, errors 0.02 and −5 give speed 40.01, turn −2.005, left 42.015 and right 38.005 |
| FollowMe.WheelDutiesInRange | FollowMeeReceiver.py:132-137 | every duty written to either motor lies in the `duty_u16` range |
| FollowMe.RepeatClosedForm | FollowMeeReceiver.py:114-120 | n identical samples add exactly n times their contribution: nothing clamps or resets the integrators |
| FollowMe.GrowsUnderConstantError | FollowMeeReceiver.py:114-120 | under constant positive errors both integrators grow strictly with every call |
| FollowMe.WindupUnbounded | FollowMeeReceiver.py:114 | under a constant positive distance error the distance integrator passes any bound |
| FollowMe.Motor.constructor | FollowMeeReceiver.py:11-14 | a new motor has both duties 0 |
| FollowMe.Motor.Stop | FollowMeeReceiver.py:16-18 | both duties become 0 |
| FollowMe.Motor.Start | FollowMeeReceiver.py:20-28 | the duties written are `StartDuties` |
| FollowMe.Follower.constructor | FollowMeeReceiver.py:32-81 | two distinct motors, both stopped, and zero integrators |
| FollowMe.Follower.CalcMotion | FollowMeeReceiver.py:108-137 | the integrators advance by `Accumulate`, and each motor gets the duties of its wheel speed under `Law` over the integrators before the call |
| FollowMe.Follower.MessageCallback | FollowMeeReceiver.py:98-106 | missing errors default to 0; an undecodable payload or a non-numeric distance error changes nothing; a non-numeric position error updates only the distance integrator; otherwise one `CalcMotion` |
| MissionReceiver.SetMotorBridge | MissionControl_Receiver.py:41-61 | duty `min(abs(int(speed)), 300)`; in1 exactly for speed > 0, in2 exactly for speed < 0, never both; speed 0 gives all zero |
| MissionReceiver.SetMotorRoundTrip | MissionControl_Receiver.py:47-61 | an integer speed within ±300 is carried exactly by pins and duty, and saturates at ±300 beyond |
| MissionReceiver.TiltSpeed | MissionControl_Receiver.py:63-70 | the speed is 0 or at least 10 in magnitude, and when non-zero it is `int(x*100)` |
| MissionReceiver.TiltSpeedDeadZone | MissionControl_Receiver.py:65-70 | the speed is 0 exactly for −0.1 < x < 0.1, and positive exactly for x >= 0.1 |
| MissionReceiver.TiltSpeedMonotone | MissionControl_Receiver.py:65-70 | tilting further never gives a smaller speed |
| MissionReceiver.ReadTilt | MissionControl_Receiver.py:84-86 | no tilt exactly when "accel" is absent; the tilt is read exactly when `data["accel"]["x"]` is numeric, and is that number |
| MissionReceiver.MotorReceiver.constructor | MissionControl_Receiver.py:23-38 | both bridges idle, no effects yet |
| MissionReceiver.MotorReceiver.SetMotor | MissionControl_Receiver.py:41-61 | 'A' sets motor A's bridge, any other name motor B's, and leaves the other motor alone |
| MissionReceiver.MotorReceiver.DriveFromTilt | MissionControl_Receiver.py:63-74 | both motors get the same dead-zoned speed |
| MissionReceiver.MotorReceiver.SubCb | MissionControl_Receiver.py:77-106 | only a usable "accel" moves the motors; a bad one or an undecodable payload changes nothing; otherwise the LED and buzzer effects follow |
| Clock.ClockAngle | clock.py:78-80 | the seconds angle is in [3, 180] for seconds 0..59, and 180 at 0 |
| Clock.ClockAngleStep | clock.py:79 | each second moves the hand back by 3 degrees |
| Clock.Tick | clock.py:84-91 | a tick keeps a valid time valid |
| Clock.TickAdvances | clock.py:84-91 | a tick keeps hours < 24, minutes < 60 and seconds < 60, and advances the time of day by one second modulo 86400 |
| Clock.TickTimesAdvances | clock.py:84-91 | n ticks advance the time of day by n seconds modulo 86400 and keep it valid |
| Clock.ParseTime | clock.py:28-30 | the parse fails when there is no 'T', and succeeds only when the time part has exactly three ':' fields |
| Clock.ParseTimeOfDatetime | clock.py:28-33 | a date, 'T', HH:MM:SS, then nothing or a fraction starting with '.', parses to that time |
| Clock.ParseTimeExample | clock.py:28-30 | "2025-09-08T20:01:05.123456-04:00" parses to 20:01:05 |
| Clock.Fahrenheit | clock.py:50 | the Fahrenheit reading converts back to the Celsius one |
| Clock.TempAngle | clock.py:50-59 | the temperature angle is in [0, 180]: 0 at or below 0 °F, 180 at or above 100 °F |
| Clock.TempAngleDecreasing | clock.py:53-59 | between 0 °F and 100 °F the angle is strictly decreasing in the temperature |
| Clock.TempAngleJumps | clock.py:53-59 | the angle jumps from 9 to 180 between 35 °C and 40 °C, and from 0 to 171 between −20 °C and −15 °C |
| Clock.Press | clock.py:99-111 | the mode changes exactly when the button reads 0 after a 1; a 1 is remembered; other readings change nothing |
| Clock.HoldingDoesNotRetoggle | clock.py:99-111 | holding the button at 0 toggles only once |
| Clock.PressAll | clock.py:97-111 | without a reading of 0 the mode never changes; a last reading of 1 is remembered |
| Clock.PressAllToggles | clock.py:97-111 | over any run of readings the mode has toggled once per falling edge |
| Clock.WaitForPress | clock.py:67-72 | the temperature-mode wait reports a press exactly when one of its 600 polls reads 0, and stops at the first such poll |
| Clock.ServoClock.constructor | clock.py:7-17 | time 00:00:00, clock mode, last button 1, servo at 180 |
| Clock.ServoClock.FetchWorldTime | clock.py:20-36 | a successful parse sets the clock to the parsed time; a failed request or parse leaves it unchanged |
| Clock.ServoClock.UpdateClockServo | clock.py:75-91 | the servo gets the angle of the seconds before the tick, then the clock ticks |
| Clock.ServoClock.UpdateTempServo | clock.py:39-72 | a reported temperature sets the servo to its angle, a failed request leaves it alone; the result says whether the button was pressed |
| Clock.ServoClock.LoopPass | clock.py:97-121 | one pass of the main loop: toggle on a falling edge, resynchronise on a return to clock mode, then tick in clock mode or wait in temperature mode, returning to clock mode on a press |
| BallThrower.DistancesIncrease | BallThrower.py:12 | the measured distances increase strictly, comparing any two entries |
| BallThrower.TablesIncrease | BallThrower.py:11-12 | both tables have 9 entries and increase strictly |
| BallThrower.Interpolate | BallThrower.py:28 | the segment's line passes through its left measured point |
| BallThrower.Scan | BallThrower.py:23-29 | the bracket search returns the first bracketing segment's truncated interpolation, and falls through exactly when no segment brackets the target |
| BallThrower.InterpolateBetween | BallThrower.py:25-29 | within a segment the result lies between the segment's PWM values and rises with the target |
| BallThrower.InterpolateAtEnd | BallThrower.py:28 | the segment's line passes through its right measured point |
| BallThrower.SomeSegmentBrackets | BallThrower.py:12-24 | every target strictly between 7 and 55 lies in some segment |
| BallThrower.PredictPwmTotal | BallThrower.py:15-29 | the predictor always returns a value, never falling through to `None` |
| BallThrower.ScanFirst | BallThrower.py:23-29 | the search returns the value of the first segment that brackets the target |
| BallThrower.Segment | BallThrower.py:23-29 | a target inside the table is handled by its first bracketing segment |
| BallThrower.PredictPwm | BallThrower.py:15-29 | a target of at most 7 gives 100, and a target of at least 55 gives 900 |
| BallThrower.PredictPwmAtTable | BallThrower.py:11-29 | at a tabulated distance the prediction is exactly its tabulated PWM |
| BallThrower.PredictPwmInRange | BallThrower.py:15-29 | every prediction is in [100, 900] |
| BallThrower.SegmentOrder | BallThrower.py:23-24 | a farther target is never handled by an earlier segment |
| BallThrower.PredictPwmMonotone | BallThrower.py:11-29 | the prediction is nondecreasing in the target distance |
| MissionController.Accepts | MissionControl_Controller.py:49-51 | an accepted press is strictly later than the stored one |
| MissionController.LastAccepted | MissionControl_Controller.py:49-51 | the stored timestamp never goes back, and is the initial one or one of the presses |
| MissionController.Accepted | MissionControl_Controller.py:49-51 | every accepted press is at least 200 ms after the initial timestamp |
| MissionController.AcceptedSpaced | MissionControl_Controller.py:47-61 | every accepted press is a real press; the first comes at least 200 ms after the stored timestamp; consecutive accepted presses are at least 200 ms apart; the stored timestamp is the last accepted press |
| MissionController.LedPayloadFlashesBlue | MissionControl_Controller.py:53-54 | the LED button's message, on the receiver, writes the LED at (0, 0, 225), does nothing else, and moves no motor |
| MissionController.BuzzerPayloadPulses | MissionControl_Controller.py:63-64 | the buzzer button's message, on the receiver, pulses the buzzer and moves no motor |
| MissionController.Controller.constructor | MissionControl_Controller.py:33-35 | both debounce timestamps start at 0 |
| MissionController.Controller.ButtonLedPressed | MissionControl_Controller.py:47-55 | a press within 200 ms changes nothing; otherwise it becomes the stored timestamp and `{"color":[0,0,225]}` is published to /ME35/17; the buzzer button's timestamp is untouched |
| MissionController.Controller.ButtonBuzzerPressed | MissionControl_Controller.py:57-65 | the same rule with its own timestamp, publishing `{"Buzzer":true}` |
| MissionController.Controller.LedPresses | MissionControl_Controller.py:43-55 | a run of LED-button interrupts publishes once per accepted press and leaves the last accepted press stored |
| MissionController.Controller.SubCb | MissionControl_Controller.py:68-84 | a payload that does not decode (caught `json.loads` error, or a decode error escaping the handler) produces no effect; otherwise the colour and buzzer reactions happen in order |

## Left out

- **Networking.** Wi-Fi association, MQTT connect, subscribe and
  `check_msg` polling, and the HTTP requests in `clock.py` are left out.
  They are I/O: decoded payloads and answers come in as parameters, and a
  publish is an appended record.
- **JSON.** Decoding and encoding are left out. A decoded message is an
  abstract key-to-value map, and a non-object top-level value is not
  modelled.
- **Hardware.** Pin, PWM, NeoPixel, servo and buzzer writes are left out.
  Each is the value last written to a field. `time.sleep`, the 0.5 s flash
  and pulse durations, and the sensor reads are left out too. The
  line-follower's on-line result is an input boolean.
- **Floating point.** IEEE rounding, NaN and infinities are left out; the
  arithmetic is exact. A NaN target would make `predict_pwm_interp` fall
  through to `None`.
- Clock.TempAngle: the servo gets `round(angle)`; the model keeps the
  unrounded angle, because Python's float rounding is not modelled.
- **Timer wrap-around.** `ticks_ms` wrap-around in `ticks_diff` is left out;
  time is a plain integer and differences are plain subtraction.
- **Strings in arithmetic.** A string-valued tilt, error or colour is
  treated as an error. Python would instead repeat the string when
  multiplying it by an integer; in every handler here an exception still
  follows, except that `int(x_val * 100)` of a digit string is not modelled.
- Text.ParseInt: does not accept the surrounding whitespace or the digit
  underscores that Python's `int()` allows, because the service never sends
  them.
- **NeoPixel colours.** Only their first three items are used. A colour
  whose first items store but a later one raises is treated as not written,
  although the earlier bytes would already sit in the buffer; the buffer is
  only shown by `np.write()`, which the exception skips.
- **Controller decode errors.** In the controller's `sub_cb`, `msg.decode()`
  runs before the `try`, so a payload that is not valid UTF-8 escapes the
  handler. The main loop's `except` then skips that pass's
  `send_accel_data()` and sleeps 1 s. The model keeps only the handler's
  part: no effect happens, as for any other payload that does not decode.
- **Concurrency.** Button interrupts and MQTT callbacks are modelled as
  sequential method calls. A `KeyboardInterrupt` is modelled only between
  ticks of the line follower, not in the middle of one.
- **Other code.** The controller's accelerometer publishing loop
  (`send_accel_data`) reads a foreign accelerometer driver and is left out.
  The `BallThrower.py` console loop (`input`, `float`, quit) and `run_motor`
  timing are console and hardware I/O, also left out.
- **Other scripts.** `FollowMeSender.py` and `Cartoonify.py` are camera and
  GUI code, and `ArtAttack.py` is floating-point inverse kinematics. None
  of the three is part of this model.

## Findings

| source | as written | input that shows it | evidently intended | confidence | as-written member | corrected member |
|---|---|---|---|---|---|---|
| LineFollower.py:22-26 | the speeds are replaced by `max(min(abs(speed), 1023), 0)` before the direction test, so the test `speed >= 0` always holds and both direction pins are always 0 | `set_motor(-50, 0)` writes left direction 0 and duty 50: the left wheel turns forward | direction 1 for a negative original speed, as the comment "based on original sign" says | high; not executed | LineFollower.ClampedWheelIgnoresSign | LineFollower.ClampedWheelIntended |

`Robot.SetMotor` keeps the as-written behaviour so that it stays faithful to
the script. The control loop never calls `set_motor`, only `set_motor_dir`,
so no other member depends on either version.
