/**
 * A JSON value, as much of `encoding/json` as the two hand-written codecs
 * (ticket alphabetical tags and project state lists) need to be stated.
 */
module Json {

  /** JSON numbers are exact reals here; `encoding/json` decodes them to float64. */
  datatype Value =
    | Null
    | Bool(b: bool)
    | Number(x: real)
    | String(s: string)
    | Array(items: seq<Value>)
    | Object(members: seq<(string, Value)>)

  /**
   * The bytes handed to an `UnmarshalJSON` method: a nil slice, bytes that are
   * not valid JSON, or the text of a value.
   */
  datatype Input = Nil | Malformed | Text(v: Value)

  /** Why a custom `UnmarshalJSON` gave up. */
  datatype DecodeError =
    | SyntaxError                 // `json.Unmarshal` rejected the bytes
    | TypeError                   // the value does not fit the Go target type
    | WrongLength(n: nat)         // "length is %d, expected 2"
    | NotAString                  // "first element not a string"
    | NotANumber                  // the second element is not a number

  /** Go's `int(f)` conversion: truncation toward zero. */
  function Truncate(x: real): (n: int)
    ensures 0.0 <= x ==> n as real <= x < n as real + 1.0
    ensures x < 0.0 ==> n as real - 1.0 < x <= n as real
  {
    if 0.0 <= x then x.Floor else -((-x).Floor)
  }
}
