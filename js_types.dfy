/**
  JavaScript values as the page's scripts see them: optional values, numbers
  that may be missing or NaN, decoded JSON values with their truthiness, and
  the position readings delivered by the browser's geolocation provider.
 */
module JsTypes {

  datatype Option<+T> = None | Some(value: T)

  /** A value the scripts expect to be a number. `NonNumber` stands for any
      value whose `typeof` is not 'number' (undefined, null, a string, ...). */
  datatype Number = NonNumber | NaN | Num(value: real)

  /** A value produced by `JSON.parse`; arrays and objects are all truthy and
      are never inspected further by the scripts. */
  datatype JsonValue = JNull | JBool(b: bool) | JNumber(n: real) | JString(s: string) | JComposite

  /** JavaScript truthiness of a decoded JSON value. */
  predicate Truthy(v: JsonValue)
  {
    match v
    case JNull => false
    case JBool(b) => b
    case JNumber(n) => n != 0.0
    case JString(s) => s != ""
    case JComposite => true
  }

  /** JavaScript truthiness of a string that may be null or undefined. */
  predicate TruthyString(s: Option<string>)
  {
    s.Some? && s.value != ""
  }

  /** `Math.abs` on a finite number. */
  function Abs(x: real): (r: real)
    ensures r >= 0.0 && (r == x || r == -x)
  {
    if x < 0.0 then -x else x
  }

  /** `Math.round` on a finite number: the nearest integer, halves rounded up. */
  function JsRound(x: real): (n: int)
    ensures x - 0.5 < n as real <= x + 0.5
  {
    (x + 0.5).Floor
  }

  /** The `coords` of a `GeolocationPosition`. */
  datatype Coords = Coords(longitude: Number, latitude: Number, altitude: Number, speed: Number, accuracy: Number)

  /** A `GeolocationPosition`: coordinates and the epoch-millisecond timestamp. */
  datatype Position = Position(coords: Coords, timestamp: Number)
}
