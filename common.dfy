/** Small shared vocabulary: bytes, optional values and results. */
module Common {

  /** An octet, as carried by `Bytes`, `Vec<u8>` and WebSocket frames. */
  newtype byte = x: int | 0 <= x < 256

  datatype Option<+T> = None | Some(value: T)

  /** The outcome of a fallible call: a value or an error. */
  datatype Result<+T, +E> = Ok(value: T) | Err(error: E)

  /** The outcome of a fallible call that yields no value (`Result<()>`). */
  datatype Outcome<+E> = Pass | Fail(error: E)

  /** True when every character of `s` is in the ASCII range. */
  predicate IsAscii(s: string)
  {
    forall i | 0 <= i < |s| :: s[i] as int < 128
  }

  /** The bytes of an ASCII string: one byte per character, same code. */
  function Ascii(s: string): (r: seq<byte>)
    requires IsAscii(s)
    ensures |r| == |s|
    ensures forall i | 0 <= i < |s| :: r[i] as int == s[i] as int
  {
    seq(|s|, i requires 0 <= i < |s| => s[i] as int as byte)
  }

  /** `s.starts_with(c)` for a single character. */
  predicate StartsWith(s: string, c: char)
  {
    |s| > 0 && s[0] == c
  }
}
