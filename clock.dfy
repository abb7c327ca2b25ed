/**
  The servo clock: a software clock ticks once a second and points a servo at
  the seconds; a button toggles to a temperature mode that points the servo
  at the outdoor temperature. The clock is synchronised from a world-time
  service whose answer is an ISO-8601 datetime string.
*/
module Clock {
  import opened Common
  import opened Text

  /** `current_hours`, `current_minutes`, `current_seconds`. */
  datatype Time = Time(hours: int, minutes: int, seconds: int)

  predicate ValidTime(t: Time)
  {
    0 <= t.hours < 24 && 0 <= t.minutes < 60 && 0 <= t.seconds < 60
  }

  function SecondsOfDay(t: Time): int
  {
    t.hours * 3600 + t.minutes * 60 + t.seconds
  }

  const SecondsPerDay: int := 86400

  /** The seconds hand: 180 degrees at 0 s, 3 degrees less for every second. */
  function ClockAngle(seconds: int): (a: int)
    ensures 0 <= seconds < 60 ==> 3 <= a <= 180
    ensures seconds == 0 ==> a == 180
  {
    180 - seconds * 3
  }

  /** The hand moves backwards one step of 3 degrees every second. */
  lemma ClockAngleStep(seconds: int)
    ensures ClockAngle(seconds + 1) == ClockAngle(seconds) - 3
  {
  }

  /** The increment in `update_clock_servo`, with its carries and the hour wrap. */
  function Tick(t: Time): (r: Time)
    ensures ValidTime(t) ==> ValidTime(r)
  {
    var s := t.seconds + 1;
    if s >= 60 then
      var m := t.minutes + 1;
      if m >= 60 then Time((t.hours + 1) % 24, 0, 0) else Time(t.hours, m, 0)
    else Time(t.hours, t.minutes, s)
  }

  /** A tick keeps a valid time valid and advances the time of day by one second, modulo a day. */
  lemma TickAdvances(t: Time)
    requires ValidTime(t)
    ensures ValidTime(Tick(t))
    ensures SecondsOfDay(Tick(t)) == (SecondsOfDay(t) + 1) % SecondsPerDay
  {
    var last := t.seconds == 59 && t.minutes == 59 && t.hours == 23;
    if last {
      assert Tick(t) == Time(0, 0, 0);
    } else {
      TickSameDay(t);
    }
    SecondsOfDayRange(t);
    DayStep(SecondsOfDay(t), SecondsOfDay(Tick(t)), last);
  }

  /** A time of day is between 0 and 86399 seconds, and 86399 is 23:59:59. */
  lemma SecondsOfDayRange(t: Time)
    requires ValidTime(t)
    ensures 0 <= SecondsOfDay(t) < SecondsPerDay
    ensures SecondsOfDay(t) == SecondsPerDay - 1 <==> t.seconds == 59 && t.minutes == 59 && t.hours == 23
  {
  }

  /** The next second of the day, as a plain step or as the wrap at midnight. */
  lemma DayStep(a: int, b: int, wrap: bool)
    requires 0 <= a < SecondsPerDay
    requires wrap <==> a == SecondsPerDay - 1
    requires wrap ==> b == 0
    requires !wrap ==> b == a + 1
    ensures b == (a + 1) % SecondsPerDay
  {
  }

  /** Before the last second of the day, a tick adds exactly one second. */
  lemma TickSameDay(t: Time)
    requires ValidTime(t) && !(t.seconds == 59 && t.minutes == 59 && t.hours == 23)
    ensures SecondsOfDay(Tick(t)) == SecondsOfDay(t) + 1
  {
    if t.seconds < 59 {
      assert Tick(t) == Time(t.hours, t.minutes, t.seconds + 1);
    } else if t.minutes < 59 {
      assert Tick(t) == Time(t.hours, t.minutes + 1, 0);
    } else {
      assert Tick(t) == Time(t.hours + 1, 0, 0);
    }
  }

  function TickTimes(t: Time, n: nat): Time
    decreases n
  {
    if n == 0 then t else Tick(TickTimes(t, n - 1))
  }

  /** `n` ticks advance the time of day by `n` seconds, modulo a day: a day of ticks comes back around. */
  lemma {:induction false} TickTimesAdvances(t: Time, n: nat)
    requires ValidTime(t)
    ensures ValidTime(TickTimes(t, n))
    ensures SecondsOfDay(TickTimes(t, n)) == (SecondsOfDay(t) + n) % SecondsPerDay
    decreases n
  {
    if n > 0 {
      TickTimesAdvances(t, n - 1);
      TickStep(TickTimes(t, n - 1), SecondsOfDay(t) + n - 1);
    }
  }

  /** A tick from the time of day `k mod 86400` reaches `k + 1` mod 86400. */
  lemma TickStep(u: Time, k: int)
    requires ValidTime(u) && SecondsOfDay(u) == k % SecondsPerDay
    ensures ValidTime(Tick(u)) && SecondsOfDay(Tick(u)) == (k + 1) % SecondsPerDay
  {
    TickAdvances(u);
    ModChain(SecondsOfDay(u), SecondsOfDay(Tick(u)), k);
  }

  /** One more second after a time of day `a == k mod 86400` is `k + 1` mod 86400. */
  lemma ModChain(a: int, b: int, k: int)
    requires a == k % SecondsPerDay && b == (a + 1) % SecondsPerDay
    ensures b == (k + 1) % SecondsPerDay
  {
    DaySuccessor(k);
  }

  lemma DaySuccessor(k: int)
    ensures (k % SecondsPerDay + 1) % SecondsPerDay == (k + 1) % SecondsPerDay
  {
    var q, r := k / SecondsPerDay, k % SecondsPerDay;
    assert k == q * SecondsPerDay + r;
    if r == SecondsPerDay - 1 {
      assert k + 1 == (q + 1) * SecondsPerDay;
    } else {
      assert k + 1 == q * SecondsPerDay + (r + 1);
    }
  }

  /**
    The parse in `fetch_world_time`: the text after the first 'T', up to the
    first '.', split on ':' into exactly three integers. `None` stands for
    the exception the parse raises otherwise.
  */
  function ParseTime(datetime: string): (r: Option<Time>)
    ensures r.Some? ==>
              |Split(datetime, 'T')| >= 2 && |Split(Split(Split(datetime, 'T')[1], '.')[0], ':')| == 3
    ensures |Split(datetime, 'T')| < 2 ==> r.None?
  {
    var byT := Split(datetime, 'T');
    if |byT| < 2 then None
    else
      var timePart := Split(byT[1], '.')[0];
      var fields := Split(timePart, ':');
      if |fields| != 3 then None
      else
        match (ParseInt(fields[0]), ParseInt(fields[1]), ParseInt(fields[2]))
        case (Some(h), Some(m), Some(s)) => Some(Time(h, m, s))
        case _ => None
  }

  /** The `HH:MM:SS` text of a time. */
  function Clock24(t: Time): string
    requires ValidTime(t)
  {
    TwoDigits(t.hours) + [':'] + TwoDigits(t.minutes) + [':'] + TwoDigits(t.seconds)
  }

  /** The `HH:MM:SS` text holds neither 'T' nor '.', and splits on ':' into its three fields. */
  lemma Clock24Fields(t: Time)
    requires ValidTime(t)
    ensures 'T' !in Clock24(t) && '.' !in Clock24(t)
    ensures Split(Clock24(t), ':') == [TwoDigits(t.hours), TwoDigits(t.minutes), TwoDigits(t.seconds)]
  {
    var hh, mm, ss := TwoDigits(t.hours), TwoDigits(t.minutes), TwoDigits(t.seconds);
    assert Clock24(t) == hh + [':'] + (mm + [':'] + ss);
    assert forall k :: 0 <= k < |Clock24(t)| ==> IsDigit(Clock24(t)[k]) || Clock24(t)[k] == ':';
    SplitAtFirst(hh, mm + [':'] + ss, ':');
    SplitAtFirst(mm, ss, ':');
    SplitNoSeparator(ss, ':');
  }

  /** The time part the parse cuts out of a datetime of the service's shape. */
  lemma TimePartOf(date: string, clock: string, rest: string)
    requires 'T' !in date && 'T' !in clock && '.' !in clock
    requires rest == [] || rest[0] == '.'
    ensures var byT := Split(date + ['T'] + clock + rest, 'T');
      |byT| >= 2 && Split(byT[1], '.')[0] == clock
  {
    SplitAtFirst(date, clock + rest, 'T');
    assert date + ['T'] + clock + rest == date + ['T'] + (clock + rest);
    SplitPrefix(clock, rest, 'T');
    var tail := Split(rest, 'T')[0];
    SplitFirstIsPrefix(rest, 'T');
    assert tail == [] || tail[0] == '.';
    SplitPrefix(clock, tail, '.');
    if tail != [] {
      assert tail == [] + ['.'] + tail[1..];
      SplitAtFirst([], tail[1..], '.');
    } else {
      assert clock + tail == clock;
    }
  }

  /**
    Any datetime of the service's shape parses to its time of day: a date
    without 'T', then 'T', then `HH:MM:SS`, then nothing or a fraction and
    offset starting with '.'.
  */
  lemma ParseTimeOfDatetime(date: string, t: Time, rest: string)
    requires 'T' !in date && ValidTime(t)
    requires rest == [] || rest[0] == '.'
    ensures ParseTime(date + ['T'] + Clock24(t) + rest) == Some(t)
  {
    Clock24Fields(t);
    TimePartOf(date, Clock24(t), rest);
    ParseTwoDigits(t.hours);
    ParseTwoDigits(t.minutes);
    ParseTwoDigits(t.seconds);
  }

  /** The example answer of the world-time service. */
  lemma ParseTimeExample()
    ensures ParseTime("2025-09-08T20:01:05.123456-04:00") == Some(Time(20, 1, 5))
  {
    var t := Time(20, 1, 5);
    assert Clock24(t) == "20:01:05";
    assert "2025-09-08T20:01:05.123456-04:00" == "2025-09-08" + ['T'] + Clock24(t) + ".123456-04:00";
    ParseTimeOfDatetime("2025-09-08", t, ".123456-04:00");
  }

  /** The Fahrenheit reading of a Celsius temperature. */
  function Fahrenheit(celsius: real): (f: real)
    // the inverse conversion gives the Celsius reading back
    ensures (f - 32.0) * 5.0 / 9.0 == celsius
  {
    celsius * 9.0 / 5.0 + 32.0
  }

  /** The servo angle of temperature mode, before rounding to whole degrees. */
  function TempAngle(celsius: real): (a: real)
    ensures 0.0 <= a <= 180.0
    ensures Fahrenheit(celsius) <= 0.0 ==> a == 0.0
    ensures Fahrenheit(celsius) >= 100.0 ==> a == 180.0
  {
    var f := Fahrenheit(celsius);
    if f <= 0.0 then 0.0
    else if f >= 100.0 then 180.0
    else 180.0 - ((f / 100.0) * 180.0)
  }

  /** Between 0 and 100 degrees Fahrenheit the angle falls strictly as the temperature rises. */
  lemma TempAngleDecreasing(c1: real, c2: real)
    requires c1 < c2
    requires 0.0 < Fahrenheit(c1) && Fahrenheit(c2) < 100.0
    ensures TempAngle(c1) > TempAngle(c2)
  {
    assert Fahrenheit(c1) < Fahrenheit(c2);
  }

  /**
    The two clamps sit at the opposite ends from the formula's values: the
    angle jumps from near 0 up to 180 as the temperature passes 100 F, and
    from 0 up to near 180 as it passes 0 F.
  */
  lemma TempAngleJumps()
    ensures TempAngle(35.0) == 9.0 && TempAngle(40.0) == 180.0
    ensures TempAngle(-20.0) == 0.0 && TempAngle(-15.0) == 171.0
  {
  }

  datatype Mode = ClockMode | TempMode

  function Toggled(m: Mode): Mode
  {
    if m == ClockMode then TempMode else ClockMode
  }

  /** The mode and the previous button reading (`mode`, `last_button`). */
  datatype Panel = Panel(mode: Mode, lastButton: int)

  /** The button handling at the top of the main loop: a reading of 0 after a 1 toggles the mode. */
  function Press(p: Panel, reading: int): (q: Panel)
    ensures q.mode != p.mode <==> reading == 0 && p.lastButton == 1
    ensures reading == 0 ==> q.lastButton == 0 || q == p
    ensures reading == 1 ==> q == Panel(p.mode, 1)
    ensures reading != 0 && reading != 1 ==> q == p
  {
    if reading == 0 && p.lastButton == 1 then Panel(Toggled(p.mode), 0)
    else if reading == 1 then Panel(p.mode, 1)
    else p
  }

  /** Holding the button down toggles once: a second 0 changes nothing. */
  lemma HoldingDoesNotRetoggle(p: Panel)
    ensures Press(Press(p, 0), 0) == Press(p, 0)
  {
  }

  function PressAll(p: Panel, readings: seq<int>): (q: Panel)
    // without a reading of 0 the mode never changes
    ensures (forall k :: 0 <= k < |readings| ==> readings[k] != 0) ==> q.mode == p.mode
    // a last reading of 1 is what the next pass compares with
    ensures |readings| > 0 && readings[|readings| - 1] == 1 ==> q.lastButton == 1
    decreases |readings|
  {
    if |readings| == 0 then p else PressAll(Press(p, readings[0]), readings[1..])
  }

  /** The number of falling edges, 1 then 0, in the readings, the first compared with `last`. */
  function FallingEdges(last: int, readings: seq<int>): nat
    decreases |readings|
  {
    if |readings| == 0 then 0
    else
      var here := if readings[0] == 0 && last == 1 then 1 else 0;
      var last' := if readings[0] == 1 then 1 else if here == 1 then 0 else last;
      here + FallingEdges(last', readings[1..])
  }

  /** Over any run of readings, the mode has toggled once per falling edge and no more. */
  lemma {:induction false} PressAllToggles(p: Panel, readings: seq<int>)
    ensures PressAll(p, readings).mode ==
      if FallingEdges(p.lastButton, readings) % 2 == 0 then p.mode else Toggled(p.mode)
    decreases |readings|
  {
    if |readings| > 0 {
      var q := Press(p, readings[0]);
      PressAllToggles(q, readings[1..]);
    }
  }

  /** How many button polls the temperature mode makes before giving up (60 s at 0.1 s). */
  const PollLimit: int := 600

  /**
    The wait at the end of `update_temp_servo_nonblocking`: `polls` are the
    button readings it would see; it stops at the first 0. Returns whether
    the button was pressed and how many readings were taken.
  */
  method WaitForPress(polls: seq<int>) returns (pressed: bool, taken: nat)
    requires |polls| == PollLimit
    ensures taken <= PollLimit
    ensures forall k :: 0 <= k < taken - 1 ==> polls[k] != 0
    ensures pressed <==> exists k :: 0 <= k < PollLimit && polls[k] == 0
    ensures pressed ==> taken >= 1 && polls[taken - 1] == 0
    ensures !pressed ==> taken == PollLimit
  {
    var i := 0;
    while i < PollLimit
      invariant 0 <= i <= PollLimit
      invariant forall k :: 0 <= k < i ==> polls[k] != 0
    {
      if polls[i] == 0 {
        return true, i + 1;
      }
      i := i + 1;
    }
    return false, PollLimit;
  }

  /** The script's globals: the clock, the panel and the angle last written to the servo. */
  class ServoClock {
    var hours: int
    var minutes: int
    var seconds: int
    var mode: Mode
    var lastButton: int
    var servo: real

    function Now(): Time
      reads this
    {
      Time(hours, minutes, seconds)
    }

    function Buttons(): Panel
      reads this
    {
      Panel(mode, lastButton)
    }

    constructor ()
      ensures Now() == Time(0, 0, 0) && Buttons() == Panel(ClockMode, 1) && servo == 180.0
    {
      hours, minutes, seconds := 0, 0, 0;
      mode, lastButton := ClockMode, 1;
      servo := 180.0;
    }

    /**
      `fetch_world_time`: `answer` is the datetime the service returned,
      `None` when the request fails. The clock changes only on a successful parse.
    */
    method FetchWorldTime(answer: Option<string>)
      modifies this`hours, this`minutes, this`seconds
      ensures answer.Some? && ParseTime(answer.value).Some? ==> Now() == ParseTime(answer.value).value
      ensures answer.None? || ParseTime(answer.value).None? ==> Now() == old(Now())
    {
      if answer.Some? {
        var parsed := ParseTime(answer.value);
        if parsed.Some? {
          hours := parsed.value.hours;
          minutes := parsed.value.minutes;
          seconds := parsed.value.seconds;
        }
      }
    }

    /** `update_clock_servo`: the angle is taken from the seconds before they advance. */
    method UpdateClockServo()
      modifies this`hours, this`minutes, this`seconds, this`servo
      ensures servo == ClockAngle(old(seconds)) as real
      ensures Now() == Tick(old(Now()))
    {
      var angle := 180 - seconds * 3;
      servo := angle as real;
      seconds := seconds + 1;
      if seconds >= 60 {
        seconds := 0;
        minutes := minutes + 1;
        if minutes >= 60 {
          minutes := 0;
          hours := (hours + 1) % 24;
        }
      }
    }

    /**
      `update_temp_servo_nonblocking`: `celsius` is the reported temperature,
      `None` when the request fails (the servo is left alone); then the wait.
    */
    method UpdateTempServo(celsius: Option<real>, polls: seq<int>) returns (pressed: bool)
      requires |polls| == PollLimit
      modifies this`servo
      ensures celsius.Some? ==> servo == TempAngle(celsius.value)
      ensures celsius.None? ==> servo == old(servo)
      ensures pressed <==> exists k :: 0 <= k < PollLimit && polls[k] == 0
    {
      if celsius.Some? {
        servo := TempAngle(celsius.value);
      }
      var taken;
      pressed, taken := WaitForPress(polls);
    }

    /**
      One pass of the main loop: `button` is the reading at its top, `answer`
      the world-time answer for a resynchronisation, `celsius` and `polls`
      what temperature mode sees.
    */
    method LoopPass(button: int, answer: Option<string>, celsius: Option<real>, polls: seq<int>)
      requires |polls| == PollLimit
      modifies this
      ensures var p := Press(old(Buttons()), button);
        var toggled := p.mode != old(mode);
        var synced := if toggled && p.mode == ClockMode && answer.Some? && ParseTime(answer.value).Some?
                      then ParseTime(answer.value).value else old(Now());
        lastButton == p.lastButton &&
        (p.mode == ClockMode ==> mode == ClockMode && Now() == Tick(synced) && servo == ClockAngle(synced.seconds) as real) &&
        (p.mode == TempMode ==>
          (celsius.Some? ==> servo == TempAngle(celsius.value)) &&
          (celsius.None? ==> servo == old(servo)) &&
          ((exists k :: 0 <= k < PollLimit && polls[k] == 0) ==>
             mode == ClockMode &&
             Now() == (if answer.Some? && ParseTime(answer.value).Some? then ParseTime(answer.value).value else old(Now()))) &&
          ((forall k :: 0 <= k < PollLimit ==> polls[k] != 0) ==> mode == TempMode && Now() == old(Now())))
    {
      var buttonState := button;
      if buttonState == 0 && lastButton == 1 {
        mode := if mode == ClockMode then TempMode else ClockMode;
        lastButton := 0;
        if mode == ClockMode {
          FetchWorldTime(answer);
        }
      } else if buttonState == 1 {
        lastButton := 1;
      }

      if mode == ClockMode {
        UpdateClockServo();
      } else {
        var pressed := UpdateTempServo(celsius, polls);
        if pressed {
          mode := ClockMode;
          FetchWorldTime(answer);
        }
      }
    }
  }
}
