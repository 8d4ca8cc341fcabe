/** UTF-8, as defined in section 3 of RFC 3629: the codec Python's `str.encode()`
    uses by default, which the BUFFER input type applies to textual items.

    `Encode` is the codec; `Decode` is its partner, used only to state that the
    encoding loses nothing. */
module Utf8 {
  import opened Wrappers

  newtype byte = x: int | 0 <= x < 0x100

  /** A continuation byte has the bit pattern 10xxxxxx. */
  predicate IsContinuation(b: byte) {
    0x80 <= b < 0xC0
  }

  /** The length of the sequence a lead byte starts, or 0 when `b` cannot lead one. */
  function SequenceLength(b: byte): nat {
    if b < 0x80 then 1
    else if b < 0xC0 then 0
    else if b < 0xE0 then 2
    else if b < 0xF0 then 3
    else if b < 0xF8 then 4
    else 0
  }

  /** The bytes of one Unicode scalar value: one byte for ASCII, up to four otherwise;
      the lead byte announces the length and every other byte is a continuation. */
  function EncodeChar(c: char): (r: seq<byte>)
    ensures 1 <= |r| <= 4
    ensures |r| == 1 <==> c as int < 0x80
    ensures |r| == 1 ==> r[0] as int == c as int
    ensures SequenceLength(r[0]) == |r|
    ensures forall k | 1 <= k < |r| :: IsContinuation(r[k])
  {
    var cp := c as int;
    if cp < 0x80 then
      [cp as byte]
    else if cp < 0x800 then
      [(0xC0 + cp / 0x40) as byte, (0x80 + cp % 0x40) as byte]
    else if cp < 0x1_0000 then
      [(0xE0 + cp / 0x40 / 0x40) as byte, (0x80 + cp / 0x40 % 0x40) as byte,
       (0x80 + cp % 0x40) as byte]
    else
      [(0xF0 + cp / 0x40 / 0x40 / 0x40) as byte, (0x80 + cp / 0x40 / 0x40 % 0x40) as byte,
       (0x80 + cp / 0x40 % 0x40) as byte, (0x80 + cp % 0x40) as byte]
  }

  /** The code point spelled by one well-formed sequence (lead byte and continuations). */
  function CodePoint(bs: seq<byte>): int
    requires 1 <= |bs| <= 4
  {
    if |bs| == 1 then bs[0] as int
    else if |bs| == 2 then (bs[0] as int - 0xC0) * 0x40 + (bs[1] as int - 0x80)
    else if |bs| == 3 then
      ((bs[0] as int - 0xE0) * 0x40 + (bs[1] as int - 0x80)) * 0x40 + (bs[2] as int - 0x80)
    else
      (((bs[0] as int - 0xF0) * 0x40 + (bs[1] as int - 0x80)) * 0x40
        + (bs[2] as int - 0x80)) * 0x40 + (bs[3] as int - 0x80)
  }

  predicate IsScalarValue(cp: int) {
    0 <= cp < 0xD800 || 0xE000 <= cp < 0x11_0000
  }

  /** The bytes of a string, character after character. */
  function Encode(s: string): (r: seq<byte>)
    ensures |s| <= |r| <= 4 * |s|
  {
    if s == [] then [] else EncodeChar(s[0]) + Encode(s[1..])
  }

  /** Reads a byte sequence back into characters; `None` when it is not a sequence of
      lead bytes with their continuations spelling scalar values. Unlike section 3 of
      RFC 3629 it accepts overlong forms such as `C0 80`. */
  function Decode(bs: seq<byte>): Option<string>
    decreases |bs|
  {
    if bs == [] then Some([])
    else
      var n := SequenceLength(bs[0]);
      if n == 0 || |bs| < n then None
      else if exists k | 1 <= k < n :: !IsContinuation(bs[k]) then None
      else
        var cp := CodePoint(bs[..n]);
        if !IsScalarValue(cp) then None
        else match Decode(bs[n..])
          case None => None
          case Some(rest) => Some([cp as char] + rest)
  }

  /** The bytes `EncodeChar` writes spell the character's code point again. */
  lemma CodePointOfEncodeChar(c: char)
    ensures CodePoint(EncodeChar(c)) == c as int
  {
  }

  /** Decoding the encoding of a string gives the string back: `Encode` loses nothing. */
  lemma {:induction false} DecodeEncode(s: string)
    ensures Decode(Encode(s)) == Some(s)
  {
    if s != [] {
      var head := EncodeChar(s[0]);
      var bs := Encode(s);
      assert bs == head + Encode(s[1..]);
      assert bs[..|head|] == head;
      assert bs[|head|..] == Encode(s[1..]);
      CodePointOfEncodeChar(s[0]);
      DecodeEncode(s[1..]);
      assert [s[0]] + s[1..] == s;
    }
  }

  /** Encoding distributes over concatenation: each character is encoded on its own. */
  lemma {:induction false} EncodeAppend(a: string, b: string)
    ensures Encode(a + b) == Encode(a) + Encode(b)
  {
    if a != [] {
      assert (a + b)[1..] == a[1..] + b;
      EncodeAppend(a[1..], b);
    } else {
      assert a + b == b;
    }
  }

  /** An ASCII string is encoded as its own character codes, one byte each. */
  lemma {:induction false} EncodeAscii(s: string)
    requires forall k | 0 <= k < |s| :: s[k] as int < 0x80
    ensures |Encode(s)| == |s|
    ensures forall k | 0 <= k < |s| :: Encode(s)[k] as int == s[k] as int
  {
    if s != [] {
      EncodeAscii(s[1..]);
      var r := Encode(s);
      assert r == EncodeChar(s[0]) + Encode(s[1..]);
      forall k | 0 <= k < |s| ensures r[k] as int == s[k] as int {
        if k > 0 {
          assert r[k] == Encode(s[1..])[k - 1];
        }
      }
    }
  }
}
