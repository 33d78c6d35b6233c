/** Well-formed UTF-8, the test `std::str::from_utf8` applies before a byte
    buffer may become a WebSocket text frame. The byte ranges are those of
    table 3-7 ("Well-Formed UTF-8 Byte Sequences") of the Unicode Standard:
    no overlong forms, no surrogates, nothing above U+10FFFF. */
module Utf8 {
  import opened Common

  predicate IsContinuation(b: byte)
  {
    0x80 <= b <= 0xBF
  }

  /** Smallest allowed second byte after a multi-byte lead byte: E0 and F0
      exclude overlong forms. */
  function SecondLow(lead: byte): byte
  {
    if lead == 0xE0 then 0xA0 else if lead == 0xF0 then 0x90 else 0x80
  }

  /** Largest allowed second byte: ED excludes the surrogates, F4 the values
      above U+10FFFF. */
  function SecondHigh(lead: byte): byte
  {
    if lead == 0xED then 0x9F else if lead == 0xF4 then 0x8F else 0xBF
  }

  /** The length (1 to 4) of the well-formed encoded scalar value at the
      start of `s`, or 0 when `s` does not start with one. */
  function ScalarLength(s: seq<byte>): (n: nat)
    ensures n <= 4 && n <= |s|
    ensures |s| > 0 && s[0] < 0x80 ==> n == 1
    ensures n > 0 ==> |s| > 0 && (n == 1 <==> s[0] < 0x80)
  {
    if |s| == 0 then 0
    else if s[0] < 0x80 then 1
    else if 0xC2 <= s[0] <= 0xDF then
      if |s| >= 2 && IsContinuation(s[1]) then 2 else 0
    else if 0xE0 <= s[0] <= 0xEF then
      if |s| >= 3 && SecondLow(s[0]) <= s[1] <= SecondHigh(s[0]) && IsContinuation(s[2]) then 3 else 0
    else if 0xF0 <= s[0] <= 0xF4 then
      if |s| >= 4 && SecondLow(s[0]) <= s[1] <= SecondHigh(s[0]) && IsContinuation(s[2]) && IsContinuation(s[3]) then 4 else 0
    else 0
  }

  /** `s` is a concatenation of well-formed encoded scalar values. */
  predicate ValidUtf8(s: seq<byte>)
    decreases |s|
  {
    s == [] || (ScalarLength(s) > 0 && ValidUtf8(s[ScalarLength(s)..]))
  }

  predicate AllAscii(s: seq<byte>)
  {
    forall i | 0 <= i < |s| :: s[i] < 0x80
  }

  /** Every ASCII byte string is valid UTF-8, so the text encoding of a
      packet whose payload is ASCII always passes `from_utf8`. */
  lemma {:induction false} AsciiIsUtf8(s: seq<byte>)
    requires AllAscii(s)
    ensures ValidUtf8(s)
  {
    if s != [] {
      assert ScalarLength(s) == 1;
      AsciiIsUtf8(s[1..]);
    }
  }

  /** A lone continuation byte or a byte that never starts a scalar value
      makes the whole buffer invalid, whatever follows it. */
  lemma {:induction false} BadLeadByteIsInvalid(b: byte, rest: seq<byte>)
    requires 0x80 <= b <= 0xC1 || 0xF5 <= b
    ensures !ValidUtf8([b] + rest)
  {
    assert ScalarLength([b] + rest) == 0;
  }
}
