/** Lowercase base16 ("hex") encoding of bytes, as `Buffer.toString('hex')` writes
    it: two characters per byte, high nibble first, alphabet 0-9a-f (section 8 of
    RFC 4648, with the lowercase alphabet). */
module Hex {
  import opened Js

  type Byte = x: int | 0 <= x < 256

  const Alphabet: string := "0123456789abcdef"

  predicate IsHexChar(c: char) {
    ('0' <= c <= '9') || ('a' <= c <= 'f')
  }

  predicate IsLowerHex(s: string) {
    forall i :: 0 <= i < |s| ==> IsHexChar(s[i])
  }

  function HexDigit(v: nat): (c: char)
    requires v < 16
    ensures IsHexChar(c)
  {
    if v < 10 then ('0' as int + v) as char else ('a' as int + v - 10) as char
  }

  function HexValue(c: char): (v: nat)
    requires IsHexChar(c)
    ensures v < 16
  {
    if c <= '9' then c as int - '0' as int else c as int - 'a' as int + 10
  }

  lemma HexValueOfDigit(v: nat)
    requires v < 16
    ensures HexValue(HexDigit(v)) == v
  {
  }

  /** The hex text of a byte string. */
  function Encode(bytes: seq<Byte>): (s: string)
    ensures |s| == 2 * |bytes|
    ensures IsLowerHex(s)
  {
    if |bytes| == 0 then ""
    else [HexDigit(bytes[0] / 16), HexDigit(bytes[0] % 16)] + Encode(bytes[1..])
  }

  /** The bytes a hex text stands for; `None` for an odd length or a character outside the alphabet. */
  function Decode(s: string): (r: Option<seq<Byte>>)
    ensures r.Some? ==> 2 * |r.value| == |s|
    decreases |s|
  {
    if |s| == 0 then Some([])
    else if |s| == 1 || !IsHexChar(s[0]) || !IsHexChar(s[1]) then None
    else
      match Decode(s[2..])
      case None => None
      case Some(rest) => Some([HexValue(s[0]) * 16 + HexValue(s[1])] + rest)
  }

  /** Decoding the hex text of any byte string gives the bytes back. */
  lemma {:induction false} DecodeEncode(bytes: seq<Byte>)
    ensures Decode(Encode(bytes)) == Some(bytes)
  {
    if |bytes| > 0 {
      var b := bytes[0];
      var s := Encode(bytes);
      assert s[2..] == Encode(bytes[1..]);
      DecodeEncode(bytes[1..]);
      HexValueOfDigit(b / 16);
      HexValueOfDigit(b % 16);
      assert [b] + bytes[1..] == bytes;
    }
  }

  /** Hex text never holds a '/' character, so it fits in one URL path segment. */
  lemma NoSlash(s: string)
    requires IsLowerHex(s)
    ensures '/' !in s
  {
  }
}
