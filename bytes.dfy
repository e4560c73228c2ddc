/** Bytes, and the UTF-8 encoding of text as Go strings hold it. */
module Bytes {

  /** An 8-bit byte. */
  newtype byte = x: int | 0 <= x < 256

  /** The UTF-8 encoding of one Unicode scalar value: one to four bytes. */
  function Utf8(c: char): (b: seq<byte>)
    ensures 1 <= |b| <= 4
    ensures c as int < 0x80 ==> b == [c as int as byte]
  {
    var n := c as int;
    if n < 0x80 then [n as byte]
    else if n < 0x800 then [(0xC0 + n / 64) as byte, (0x80 + n % 64) as byte]
    else if n < 0x10000 then
      [(0xE0 + n / 4096) as byte, (0x80 + n / 64 % 64) as byte, (0x80 + n % 64) as byte]
    else
      [(0xF0 + n / 262144) as byte, (0x80 + n / 4096 % 64) as byte,
       (0x80 + n / 64 % 64) as byte, (0x80 + n % 64) as byte]
  }

  /** The UTF-8 bytes of a string. */
  function Utf8String(s: string): (b: seq<byte>)
    ensures |s| <= |b| <= 4 * |s|
    ensures b == [] <==> s == []
    ensures IsAscii(s) ==> |b| == |s| && forall i :: 0 <= i < |s| ==> b[i] as int == s[i] as int
  {
    if s == [] then [] else Utf8(s[0]) + Utf8String(s[1..])
  }

  /** Every character of `s` is in the 7-bit ASCII range. */
  predicate IsAscii(s: string)
  {
    forall i :: 0 <= i < |s| ==> s[i] as int < 0x80
  }

  /** Encoding a concatenation concatenates the encodings. */
  lemma {:induction false} Utf8StringAppend(s: string, t: string)
    ensures Utf8String(s + t) == Utf8String(s) + Utf8String(t)
  {
    if s != [] {
      var u := s + t;
      assert u[0] == s[0] && u[1..] == s[1..] + t;
      Utf8StringAppend(s[1..], t);
      assert Utf8String(u) == Utf8(s[0]) + (Utf8String(s[1..]) + Utf8String(t));
    } else {
      assert s + t == t;
    }
  }
}
