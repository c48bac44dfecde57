/**
 * UTF-16 as Rust's `str::encode_utf16` produces it (section 2.1 of RFC 2781), and the
 * decoder of section 2.2 of RFC 2781 as its reference inverse.
 *
 * A Rust `&str` holds Unicode scalar values, which is exactly what a Dafny `char` is:
 * 0 ..= 0xD7FF or 0xE000 ..= 0x10FFFF.
 */
module Utf16 {
  import opened Wrappers

  /** A Rust `u16`. */
  type CodeUnit = u: int | 0 <= u < 0x1_0000

  predicate IsSurrogate(u: CodeUnit) {
    0xD800 <= u <= 0xDFFF
  }

  predicate IsHighSurrogate(u: CodeUnit) {
    0xD800 <= u <= 0xDBFF
  }

  predicate IsLowSurrogate(u: CodeUnit) {
    0xDC00 <= u <= 0xDFFF
  }

  /** The code units of one scalar value: itself below 0x10000, a surrogate pair above. */
  function EncodeScalar(c: char): (units: seq<CodeUnit>)
    ensures |units| == if c as int < 0x1_0000 then 1 else 2
    ensures |units| == 1 ==> !IsSurrogate(units[0]) && units[0] == c as int
    ensures |units| == 2 ==> IsHighSurrogate(units[0]) && IsLowSurrogate(units[1])
    ensures 0 in units <==> c == '\0'
  {
    if c as int < 0x1_0000 then
      [c as int]
    else
      var v := c as int - 0x1_0000;
      [0xD800 + v / 0x400, 0xDC00 + v % 0x400]
  }

  /** `s.encode_utf16().collect::<Vec<u16>>()`. */
  function Encode(s: string): (units: seq<CodeUnit>)
    ensures |s| <= |units| <= 2 * |s|
  {
    if s == [] then [] else EncodeScalar(s[0]) + Encode(s[1..])
  }

  /** The scalar value a surrogate pair stands for. */
  function Combine(high: CodeUnit, low: CodeUnit): (c: char)
    requires IsHighSurrogate(high) && IsLowSurrogate(low)
    ensures 0x1_0000 <= c as int
  {
    (0x1_0000 + (high - 0xD800) * 0x400 + (low - 0xDC00)) as char
  }

  function Prepend(c: char, rest: Option<string>): Option<string> {
    match rest
    case None => None
    case Some(s) => Some([c] + s)
  }

  /** Decoding; `None` on an unpaired surrogate. */
  function Decode(units: seq<CodeUnit>): (r: Option<string>)
    ensures r.Some? ==> |r.value| <= |units|
    decreases |units|
  {
    if units == [] then
      Some([])
    else if !IsSurrogate(units[0]) then
      Prepend(units[0] as char, Decode(units[1..]))
    else if IsHighSurrogate(units[0]) && |units| >= 2 && IsLowSurrogate(units[1]) then
      Prepend(Combine(units[0], units[1]), Decode(units[2..]))
    else
      None
  }

  /** Decoding one scalar's units in front of anything else. */
  lemma DecodeScalarPrefix(c: char, rest: seq<CodeUnit>)
    ensures Decode(EncodeScalar(c) + rest) == Prepend(c, Decode(rest))
  {
  }

  /** Decoding undoes encoding: the encoder loses nothing. */
  lemma {:induction false} DecodeEncode(s: string)
    ensures Decode(Encode(s)) == Some(s)
  {
    if s != [] {
      DecodeScalarPrefix(s[0], Encode(s[1..]));
      DecodeEncode(s[1..]);
      assert [s[0]] + s[1..] == s;
    }
  }

  /**
   * Surrogate units are at least 0xD800, so the encoding holds a 0 unit exactly when the
   * string holds U+0000.
   */
  lemma {:induction false} ZeroUnitIffNul(s: string)
    ensures 0 in Encode(s) <==> '\0' in s
  {
    if s != [] {
      ZeroUnitIffNul(s[1..]);
      assert s == [s[0]] + s[1..];
    }
  }

  /**
   * Text encodes to exactly one unit per character if and only if it holds no
   * supplementary-plane character.
   */
  lemma {:induction false} EncodeLengthBmp(s: string)
    ensures |Encode(s)| == |s| <==> forall i :: 0 <= i < |s| ==> s[i] as int < 0x1_0000
  {
    if s != [] {
      EncodeLengthBmp(s[1..]);
      assert forall i :: 1 <= i < |s| ==> s[i] == s[1..][i - 1];
    }
  }
}
