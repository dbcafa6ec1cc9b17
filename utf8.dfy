/**
 * Bytes and the UTF-8 encoding of characters, as Rust's `char::encode_utf8`
 * and `str::as_bytes` produce them.
 */
module Utf8 {
  import opened Wrappers

  /** An unsigned 8-bit value (Rust's `u8`). */
  newtype Byte = x: int | 0 <= x < 256

  /** A continuation byte `10xxxxxx`. */
  predicate IsContinuation(b: Byte) {
    0x80 <= b < 0xC0
  }

  /** The number of bytes UTF-8 needs for `c` (Rust's `char::len_utf8`). */
  function LenUtf8(c: char): (n: nat)
    ensures 1 <= n <= 4
  {
    var v := c as int;
    if v < 0x80 then 1 else if v < 0x800 then 2 else if v < 0x1_0000 then 3 else 4
  }

  /** The UTF-8 encoding of one Unicode scalar value. */
  function Encode(c: char): (bs: seq<Byte>)
    ensures |bs| == LenUtf8(c)
    ensures (bs[0] < 0x80) <==> (c as int < 0x80)
    ensures |bs| > 1 ==> bs[0] >= 0xC0 && forall k :: 1 <= k < |bs| ==> IsContinuation(bs[k])
  {
    var v := c as int;
    if v < 0x80 then
      [v as Byte]
    else if v < 0x800 then
      [(0xC0 + v / 64) as Byte, (0x80 + v % 64) as Byte]
    else if v < 0x1_0000 then
      [(0xE0 + v / 4096) as Byte, (0x80 + (v / 64) % 64) as Byte, (0x80 + v % 64) as Byte]
    else
      [(0xF0 + v / 262144) as Byte, (0x80 + (v / 4096) % 64) as Byte,
       (0x80 + (v / 64) % 64) as Byte, (0x80 + v % 64) as Byte]
  }

  /** True when `v` is the code of a Unicode scalar value, i.e. of a Dafny `char`. */
  predicate IsScalar(v: int) {
    (0 <= v < 0xD800) || (0xE000 <= v < 0x11_0000)
  }

  /** The six payload bits of a continuation byte. */
  function Payload(b: Byte): int
    requires IsContinuation(b)
  {
    b as int - 0x80
  }

  /**
   * Decodes exactly one character from a complete UTF-8 sequence, refusing
   * overlong forms, surrogates and out-of-range values.
   */
  function Decode(bs: seq<Byte>): (r: Option<char>)
    ensures r.Some? ==> LenUtf8(r.value) == |bs|
  {
    if |bs| == 1 && bs[0] < 0x80 then
      Some(bs[0] as char)
    else if |bs| == 2 && 0xC0 <= bs[0] < 0xE0 && IsContinuation(bs[1]) then
      var v := (bs[0] as int - 0xC0) * 64 + Payload(bs[1]);
      if 0x80 <= v then Some(v as char) else None
    else if |bs| == 3 && 0xE0 <= bs[0] < 0xF0 && IsContinuation(bs[1]) && IsContinuation(bs[2]) then
      var v := (bs[0] as int - 0xE0) * 4096 + Payload(bs[1]) * 64 + Payload(bs[2]);
      if 0x800 <= v && IsScalar(v) then Some(v as char) else None
    else if |bs| == 4 && 0xF0 <= bs[0] < 0xF8 && IsContinuation(bs[1]) && IsContinuation(bs[2])
            && IsContinuation(bs[3]) then
      var v := (bs[0] as int - 0xF0) * 262144 + Payload(bs[1]) * 4096 + Payload(bs[2]) * 64 + Payload(bs[3]);
      if 0x1_0000 <= v && IsScalar(v) then Some(v as char) else None
    else
      None
  }

  /** Decoding undoes encoding: every character comes back from its bytes. */
  lemma DecodeEncode(c: char)
    ensures Decode(Encode(c)) == Some(c)
  {
    var v := c as int;
    if v < 0x80 {
    } else if v < 0x800 {
      DecodeEncodeTwo(c);
    } else if v < 0x1_0000 {
      DecodeEncodeThree(c);
    } else {
      DecodeEncodeFour(c);
    }
  }

  /** The round trip for the two-byte range. */
  lemma DecodeEncodeTwo(c: char)
    requires 0x80 <= c as int < 0x800
    ensures Decode(Encode(c)) == Some(c)
  {
    var v := c as int;
    assert v == (v / 64) * 64 + v % 64;
  }

  /** The round trip for the three-byte range. */
  lemma DecodeEncodeThree(c: char)
    requires 0x800 <= c as int < 0x1_0000
    ensures Decode(Encode(c)) == Some(c)
  {
    var v := c as int;
    var q := v / 64;
    assert v == q * 64 + v % 64;
    assert q == (q / 64) * 64 + q % 64;
    assert v / 4096 == q / 64;
    assert IsScalar(v);
  }

  /** The round trip for the four-byte range. */
  lemma DecodeEncodeFour(c: char)
    requires 0x1_0000 <= c as int
    ensures Decode(Encode(c)) == Some(c)
  {
    var v := c as int;
    var q := v / 64;
    var q2 := q / 64;
    assert v == q * 64 + v % 64;
    assert q == q2 * 64 + q % 64;
    assert q2 == (q2 / 64) * 64 + q2 % 64;
    assert v / 4096 == q2;
    assert v / 262144 == q2 / 64;
    assert IsScalar(v);
  }

  /** Distinct characters have distinct encodings. */
  lemma EncodeInjective(c: char, d: char)
    requires Encode(c) == Encode(d)
    ensures c == d
  {
    DecodeEncode(c);
    DecodeEncode(d);
  }

  /** The bytes of a string: the concatenated encodings of its characters (Rust's `str::as_bytes`). */
  function StringBytes(s: string): (bs: seq<Byte>)
    ensures |bs| >= |s|
  {
    if s == [] then [] else Encode(s[0]) + StringBytes(s[1..])
  }

  /** Every character of `s` is ASCII. */
  predicate IsAscii(s: string) {
    forall k :: 0 <= k < |s| ==> s[k] as int < 0x80
  }

  /** The bytes of an ASCII string are its character codes, one byte per character. */
  lemma {:induction false} AsciiBytes(s: string)
    requires IsAscii(s)
    ensures |StringBytes(s)| == |s|
    ensures forall k :: 0 <= k < |s| ==> StringBytes(s)[k] as int == s[k] as int
  {
    if s != [] {
      assert IsAscii(s[1..]) by {
        forall k | 0 <= k < |s[1..]| ensures s[1..][k] as int < 0x80 {
          assert s[1..][k] == s[k + 1];
        }
      }
      AsciiBytes(s[1..]);
    }
  }

  /** The bytes of a concatenation are the concatenated bytes. */
  lemma {:induction false} StringBytesAppend(s: string, t: string)
    ensures StringBytes(s + t) == StringBytes(s) + StringBytes(t)
  {
    if s == [] {
      assert s + t == t;
    } else {
      assert (s + t)[1..] == s[1..] + t;
      StringBytesAppend(s[1..], t);
    }
  }
}
