/**
  The mission-control controller: two push buttons, each debounced on its own
  200 ms window, publish an LED colour and a buzzer command; incoming
  messages set the local LED and pulse the local buzzer. Timestamps are the
  millisecond tick counter, taken as a plain integer.
*/
module MissionController {
  import opened Common
  import opened Json
  import opened Indicators
  import MissionReceiver

  /** Presses closer than this to the last accepted one are dropped. */
  const DebounceMs: int := 200
  /** `TOPIC_PUB`, the topic both buttons publish to. */
  const TopicPub: string := "/ME35/17"

  /** The payload of the LED button, `{"color":[0,0,225]}`, as the map it decodes to. */
  const LedPayload: Message := map["color" := JArr([JInt(0), JInt(0), JInt(225)])]
  /** The payload of the buzzer button, `{"Buzzer":true}`. */
  const BuzzerPayload: Message := map["Buzzer" := JBool(true)]

  /** One MQTT publish. */
  datatype Publish = Publish(topic: string, payload: Message)

  /** The debounce rule: a press at `now` counts when at least 200 ms have passed since `last`. */
  predicate Accepts(last: int, now: int)
    ensures Accepts(last, now) ==> now > last
  {
    now - last >= DebounceMs
  }

  /** The last accepted timestamp after a run of presses, starting from `last`. */
  function LastAccepted(last: int, presses: seq<int>): (r: int)
    // the stored timestamp never goes back, and is the initial one or one of the presses
    ensures r >= last
    ensures r == last || r in presses
    decreases |presses|
  {
    if |presses| == 0 then last
    else
      var before := LastAccepted(last, presses[..|presses| - 1]);
      if Accepts(before, presses[|presses| - 1]) then presses[|presses| - 1] else before
  }

  /** The presses a handler accepts, in order, out of a run starting from `last`. */
  function Accepted(last: int, presses: seq<int>): (r: seq<int>)
    // every accepted press comes at least 200 ms after the initial timestamp
    ensures forall k :: 0 <= k < |r| ==> r[k] - last >= DebounceMs
    decreases |presses|
  {
    if |presses| == 0 then []
    else
      var before := LastAccepted(last, presses[..|presses| - 1]);
      var now := presses[|presses| - 1];
      Accepted(last, presses[..|presses| - 1]) + (if Accepts(before, now) then [now] else [])
  }

  /**
    Debounce works: every accepted press is one of the presses, the first one
    is at least 200 ms after the initial timestamp, any two consecutive
    accepted presses are at least 200 ms apart, and the stored timestamp is
    the latest accepted press (the initial one if none was accepted).
  */
  lemma {:induction false} AcceptedSpaced(last: int, presses: seq<int>)
    ensures var acc := Accepted(last, presses);
      |acc| <= |presses| &&
      (forall k :: 0 <= k < |acc| ==> acc[k] in presses) &&
      (|acc| == 0 ==> LastAccepted(last, presses) == last) &&
      (|acc| > 0 ==> acc[0] - last >= DebounceMs && LastAccepted(last, presses) == acc[|acc| - 1]) &&
      (forall k :: 0 <= k < |acc| - 1 ==> acc[k + 1] - acc[k] >= DebounceMs)
    decreases |presses|
  {
    if |presses| > 0 {
      var init := presses[..|presses| - 1];
      var now := presses[|presses| - 1];
      assert presses == init + [now];
      AcceptedSpaced(last, init);
      var a := Accepted(last, init);
      var before := LastAccepted(last, init);
      if Accepts(before, now) {
        assert Accepted(last, presses) == a + [now];
        assert LastAccepted(last, presses) == now;
      } else {
        assert Accepted(last, presses) == a;
        assert LastAccepted(last, presses) == before;
      }
    }
  }

  /** A publish from the LED button, handled by the receiver, flashes it blue and nothing else. */
  lemma LedPayloadFlashesBlue()
    ensures MissionReceiver.ReadTilt(LedPayload) == MissionReceiver.NoTilt
    ensures Reactions(LedPayload) == [Led([0, 0, 225])]
  {
    assert PixelOf(LedPayload["color"]) == Some([0, 0, 225]);
  }

  /** A publish from the buzzer button, handled by the receiver, pulses its buzzer and nothing else. */
  lemma BuzzerPayloadPulses()
    ensures MissionReceiver.ReadTilt(BuzzerPayload) == MissionReceiver.NoTilt
    ensures Reactions(BuzzerPayload) == [BuzzerPulse]
  {
  }

  /** The controller's debounce state and what it has published and done so far. */
  class Controller {
    var lastPressBtn1: int
    var lastPressBtn2: int
    var published: seq<Publish>
    var effects: seq<Effect>

    constructor ()
      ensures lastPressBtn1 == 0 && lastPressBtn2 == 0
      ensures published == [] && effects == []
    {
      lastPressBtn1, lastPressBtn2 := 0, 0;
      published, effects := [], [];
    }

    /** `button_led_pressed` at tick `now`. */
    method ButtonLedPressed(now: int)
      modifies this`lastPressBtn1, this`published
      ensures !Accepts(old(lastPressBtn1), now) ==> lastPressBtn1 == old(lastPressBtn1) && published == old(published)
      ensures Accepts(old(lastPressBtn1), now) ==>
        lastPressBtn1 == now && published == old(published) + [Publish(TopicPub, LedPayload)]
    {
      if now - lastPressBtn1 < DebounceMs {
        return;
      }
      lastPressBtn1 := now;
      published := published + [Publish(TopicPub, LedPayload)];
    }

    /** `button_buzzer_pressed` at tick `now`. */
    method ButtonBuzzerPressed(now: int)
      modifies this`lastPressBtn2, this`published
      ensures !Accepts(old(lastPressBtn2), now) ==> lastPressBtn2 == old(lastPressBtn2) && published == old(published)
      ensures Accepts(old(lastPressBtn2), now) ==>
        lastPressBtn2 == now && published == old(published) + [Publish(TopicPub, BuzzerPayload)]
    {
      if now - lastPressBtn2 < DebounceMs {
        return;
      }
      lastPressBtn2 := now;
      published := published + [Publish(TopicPub, BuzzerPayload)];
    }

    /**
      A run of LED-button interrupts, one handler call per press: the LED
      button publishes once per accepted press and the buzzer button's
      timestamp is untouched.
    */
    method LedPresses(presses: seq<int>)
      modifies this`lastPressBtn1, this`published
      ensures lastPressBtn1 == LastAccepted(old(lastPressBtn1), presses)
      ensures published == old(published) + seq(|Accepted(old(lastPressBtn1), presses)|, _ => Publish(TopicPub, LedPayload))
    {
      ghost var start := lastPressBtn1;
      ghost var before := published;
      var i := 0;
      while i < |presses|
        invariant 0 <= i <= |presses|
        invariant lastPressBtn1 == LastAccepted(start, presses[..i])
        invariant published == before + seq(|Accepted(start, presses[..i])|, _ => Publish(TopicPub, LedPayload))
      {
        assert presses[..i + 1][..i] == presses[..i];
        ButtonLedPressed(presses[i]);
        i := i + 1;
      }
      assert presses[..|presses|] == presses;
    }

    /**
      `sub_cb`: `msg` is the decoded payload, `None` when it does not decode.
      A `json.loads` failure is caught inside the handler; a payload that is
      not valid UTF-8 fails in `msg.decode()` before the `try` and escapes to
      the main loop instead. Either way no LED or buzzer effect happens.
    */
    method SubCb(msg: Option<Message>)
      modifies this`effects
      ensures msg.None? ==> effects == old(effects)
      ensures msg.Some? ==> effects == old(effects) + Reactions(msg.value)
    {
      if msg.None? {
        return;
      }
      var data := msg.value;
      if "color" in data {
        var pixel := PixelOf(data["color"]);
        if pixel.None? {
          return;
        }
        effects := effects + [Led(pixel.value)];
      }
      if "Buzzer" in data && Truthy(data["Buzzer"]) {
        effects := effects + [BuzzerPulse];
      }
    }
  }
}
