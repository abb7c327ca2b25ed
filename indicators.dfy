/**
  The LED and buzzer commands both mission-control scripts accept: a "color"
  key writes LED 0, then a truthy "Buzzer" pulses the buzzer. Writing the
  LED raises on an unusable colour, which ends the handler before the buzzer.
*/
module Indicators {
  import opened Common
  import opened Json

  /** One LED write or buzzer pulse, in the order they happen. */
  datatype Effect = Led(rgb: seq<int>) | BuzzerPulse

  /** The message asks for a buzzer pulse. */
  predicate WantsBuzzer(data: Message)
  {
    "Buzzer" in data && Truthy(data["Buzzer"])
  }

  /** The message carries a colour the LED accepts. */
  predicate UsableColor(data: Message)
  {
    "color" in data && PixelOf(data["color"]).Some?
  }

  /** The LED and buzzer effects of one message. */
  function Reactions(data: Message): (e: seq<Effect>)
    ensures |e| <= 2
    // the LED is written exactly when the colour is usable, first, and with that colour
    ensures UsableColor(data) <==> |e| > 0 && e[0].Led?
    ensures forall k :: 0 <= k < |e| && e[k].Led? ==> "color" in data && PixelOf(data["color"]) == Some(e[k].rgb)
    // the buzzer pulses exactly when asked for and no bad colour has raised before it
    ensures BuzzerPulse in e <==> WantsBuzzer(data) && ("color" !in data || PixelOf(data["color"]).Some?)
    // at most one of each, the LED first
    ensures forall i, j :: 0 <= i < j < |e| ==> e[i].Led? && e[j] == BuzzerPulse
  {
    var buzz := if WantsBuzzer(data) then [BuzzerPulse] else [];
    if "color" in data then
      match PixelOf(data["color"])
      case Some(rgb) => [Led(rgb)] + buzz
      case None => []
    else buzz
  }

  /** A message with a usable colour and a truthy buzzer flag does both, LED first. */
  lemma ColorAndBuzzer(data: Message)
    requires UsableColor(data) && WantsBuzzer(data)
    ensures Reactions(data) == [Led(PixelOf(data["color"]).value), BuzzerPulse]
  {
  }

  /** A message with neither key does nothing. */
  lemma NoKeysNoEffects(data: Message)
    requires "color" !in data && "Buzzer" !in data
    ensures Reactions(data) == []
  {
  }
}
