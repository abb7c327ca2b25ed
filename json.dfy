/**
  A decoded JSON message, as the MQTT callbacks see it after `json.loads`.
  Decoding itself is not modelled: a payload that fails to decode is `None`.
*/
module Json {
  import opened Common

  /** A decoded value; `json.loads` gives an `int` for a number without fraction or exponent, a `float` otherwise. */
  datatype Json =
    | JNull
    | JBool(b: bool)
    | JInt(i: int)
    | JFloat(r: real)
    | JStr(s: string)
    | JArr(items: seq<Json>)
    | JObj(fields: map<string, Json>)

  /** A top-level JSON object. */
  type Message = map<string, Json>

  /** Python truthiness of a decoded value. */
  predicate Truthy(j: Json)
    // Python's falsy values: None, False, zero, and the empty string, list and dict
    ensures !Truthy(j) <==>
      j == JNull || j == JBool(false) || j == JInt(0) || j == JFloat(0.0) ||
      j == JStr("") || j == JArr([]) || j == JObj(map[])
  {
    match j
    case JNull => false
    case JBool(b) => b
    case JInt(i) => i != 0
    case JFloat(r) => r != 0.0
    case JStr(s) => s != ""
    case JArr(items) => items != []
    case JObj(fields) => fields != map[]
  }

  /**
    The number Python arithmetic sees in a decoded value: integers, floats,
    and booleans, which Python treats as the integers 1 and 0. Anything else
    makes `x * k` or `t + x` raise in the handlers that use this.
  */
  function AsNumber(j: Json): (r: Option<real>)
    ensures r.Some? <==> (j.JInt? || j.JFloat? || j.JBool?)
    ensures j.JInt? ==> r == Some(j.i as real)
    ensures j.JFloat? ==> r == Some(j.r)
    ensures j.JBool? ==> r == Some(if j.b then 1.0 else 0.0)
  {
    match j
    case JInt(i) => Some(i as real)
    case JFloat(x) => Some(x)
    case JBool(b) => Some(if b then 1.0 else 0.0)
    case _ => None
  }

  /** `dict.get(key, default)`. */
  function GetOr(data: Message, key: string, default: Json): (r: Json)
    ensures key in data ==> r == data[key]
    ensures key !in data ==> r == default
  {
    if key in data then data[key] else default
  }

  /**
    A value a NeoPixel's byte buffer accepts: an integer or a boolean. A float
    (even a whole one such as 225.0), a string, `null` or a container raises
    TypeError in the store.
  */
  predicate IsByte(j: Json)
  {
    j.JBool? || j.JInt?
  }

  /**
    The byte MicroPython stores for an accepted value: the low 8 bits of the
    integer (a boolean is 1 or 0); the bytearray store does not range-check.
  */
  function ByteOf(j: Json): (r: int)
    requires IsByte(j)
    ensures 0 <= r <= 255
    ensures j.JInt? && 0 <= j.i <= 255 ==> r == j.i
    ensures j.JInt? ==> (r - j.i) % 256 == 0
    ensures j.JBool? ==> r == (if j.b then 1 else 0)
  {
    if j.JBool? then (if j.b then 1 else 0) else j.i % 256
  }

  /**
    `np[0] = color` reads `color[0]`, `color[1]` and `color[2]` into the pixel
    buffer; anything else raises. The result is the pixel written.
  */
  function PixelOf(j: Json): (r: Option<seq<int>>)
    ensures r.Some? <==> j.JArr? && |j.items| >= 3 && IsByte(j.items[0]) && IsByte(j.items[1]) && IsByte(j.items[2])
    ensures r.Some? ==> |r.value| == 3 && forall k :: 0 <= k < 3 ==> r.value[k] == ByteOf(j.items[k])
    ensures r.Some? ==> forall k :: 0 <= k < 3 ==> 0 <= r.value[k] <= 255
  {
    if j.JArr? && |j.items| >= 3 && IsByte(j.items[0]) && IsByte(j.items[1]) && IsByte(j.items[2])
    then Some([ByteOf(j.items[0]), ByteOf(j.items[1]), ByteOf(j.items[2])])
    else None
  }

  /** A whole-number float is refused, while the same number as an integer is stored. */
  lemma FloatColourRefused()
    ensures PixelOf(JArr([JInt(0), JInt(0), JFloat(225.0)])).None?
    ensures PixelOf(JArr([JInt(0), JInt(0), JInt(225)])) == Some([0, 0, 225])
  {
  }
}
