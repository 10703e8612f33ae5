/** Shared value types: bytes, optional values and the errors the option validators report. */
module Base {

  /** Go's `uint8` (and `byte`). */
  newtype uint8 = x: int | 0 <= x < 256

  /** A Go `[]byte`. */
  type Bytes = seq<uint8>

  datatype Option<+T> = None | Some(value: T)

  datatype Result<+T, +E> = Ok(value: T) | Err(error: E)

  /** The errors that the option validators append to their `[]error` results.
      Only the offending value is kept; the text of the message is not modelled. */
  datatype ValidationError =
    | BindPortOutOfRange(port: int)
    | InvalidLogLevel(level: string)
    | InvalidLogFormat(format: string)

  /** The bytes of an ASCII string literal, as Go's `[]byte("...")` gives them. */
  function AsciiBytes(s: string): (r: Bytes)
    requires forall i | 0 <= i < |s| :: s[i] as int < 128
    ensures |r| == |s|
    ensures forall i | 0 <= i < |s| :: r[i] as int == s[i] as int
  {
    if s == [] then [] else [s[0] as int as uint8] + AsciiBytes(s[1..])
  }
}
