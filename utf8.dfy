/**
 * UTF-8 as defined by RFC 3629: Kotlin's `String.encodeToByteArray` and
 * `ByteArray.decodeToString`. A Dafny `char` is a Unicode scalar value, so
 * every string has exactly one encoding. Decoding is total: a well-formed
 * sequence (section 4 of RFC 3629) becomes its scalar value, and a byte
 * that does not begin one becomes U+FFFD.
 */
module Utf8 {
  import opened Basics

  const Replacement: char := '\U{FFFD}'

  /** A continuation byte, 10xxxxxx (UTF8-tail in RFC 3629). */
  predicate IsTail(b: Byte) { 0x80 <= b <= 0xBF }

  /** The bytes of one scalar value, shortest form (section 3 of RFC 3629). */
  function EncodeChar(c: char): (r: seq<Byte>)
    ensures 1 <= |r| <= 4
    ensures |r| == 1 <==> (c as int) < 0x80
    ensures |r| == 1 ==> r[0] == c as int
    ensures |r| > 1 ==> forall i :: 0 <= i < |r| ==> r[i] >= 0x80
  {
    var cp := c as int;
    if cp < 0x80 then [cp]
    else if cp < 0x800 then [0xC0 + cp / 64, 0x80 + cp % 64]
    else if cp < 0x1_0000 then [0xE0 + cp / 4096, 0x80 + (cp / 64) % 64, 0x80 + cp % 64]
    else [0xF0 + cp / 262144, 0x80 + (cp / 4096) % 64, 0x80 + (cp / 64) % 64, 0x80 + cp % 64]
  }

  /** `encodeToByteArray`: the encodings of the characters, concatenated. */
  function Encode(s: string): (r: seq<Byte>)
    ensures |r| >= |s|
  {
    if |s| == 0 then [] else EncodeChar(s[0]) + Encode(s[1..])
  }

  /** Range allowed for the second byte after lead `b0` (the UTF8-3 and UTF8-4 rules of section 4 of RFC 3629). */
  predicate SecondOk(b0: Byte, b1: Byte) {
    if b0 == 0xE0 then 0xA0 <= b1 <= 0xBF
    else if b0 == 0xED then 0x80 <= b1 <= 0x9F
    else if b0 == 0xF0 then 0x90 <= b1 <= 0xBF
    else if b0 == 0xF4 then 0x80 <= b1 <= 0x8F
    else IsTail(b1)
  }

  /** Decodes the scalar value at the front of `b`; returns it and the bytes used. */
  function DecodeStep(b: seq<Byte>): (r: (char, nat))
    requires |b| > 0
    ensures 1 <= r.1 <= |b|
  {
    var b0 := b[0];
    if b0 < 0x80 then
      (b0 as char, 1)
    else if 0xC2 <= b0 <= 0xDF && |b| >= 2 && IsTail(b[1]) then
      (TwoByte(b0, b[1]) as char, 2)
    else if 0xE0 <= b0 <= 0xEF && |b| >= 3 && SecondOk(b0, b[1]) && IsTail(b[2]) then
      (ThreeByte(b0, b[1], b[2]) as char, 3)
    else if 0xF0 <= b0 <= 0xF4 && |b| >= 4 && SecondOk(b0, b[1]) && IsTail(b[2]) && IsTail(b[3]) then
      (FourByte(b0, b[1], b[2], b[3]) as char, 4)
    else
      (Replacement, 1)
  }

  function TwoByte(b0: Byte, b1: Byte): (cp: int)
    requires 0xC2 <= b0 <= 0xDF && IsTail(b1)
    ensures 0x80 <= cp <= 0x7FF
  {
    (b0 as int - 0xC0) * 64 + (b1 as int - 0x80)
  }

  function ThreeByte(b0: Byte, b1: Byte, b2: Byte): (cp: int)
    requires 0xE0 <= b0 <= 0xEF && SecondOk(b0, b1) && IsTail(b2)
    ensures 0x800 <= cp <= 0xFFFF && !(0xD800 <= cp <= 0xDFFF)
  {
    (b0 as int - 0xE0) * 4096 + (b1 as int - 0x80) * 64 + (b2 as int - 0x80)
  }

  function FourByte(b0: Byte, b1: Byte, b2: Byte, b3: Byte): (cp: int)
    requires 0xF0 <= b0 <= 0xF4 && SecondOk(b0, b1) && IsTail(b2) && IsTail(b3)
    ensures 0x1_0000 <= cp <= 0x10_FFFF
  {
    (b0 as int - 0xF0) * 262144 + (b1 as int - 0x80) * 4096 + (b2 as int - 0x80) * 64 + (b3 as int - 0x80)
  }

  /** `decodeToString`. */
  function Decode(b: seq<Byte>): (r: string)
    ensures |r| <= |b|
    decreases |b|
  {
    if |b| == 0 then ""
    else
      var (c, n) := DecodeStep(b);
      [c] + Decode(b[n..])
  }

  lemma {:induction false} EncodeAppend(a: string, b: string)
    ensures Encode(a + b) == Encode(a) + Encode(b)
  {
    if |a| == 0 {
      assert a + b == b;
    } else {
      assert (a + b)[0] == a[0];
      assert (a + b)[1..] == a[1..] + b;
      EncodeAppend(a[1..], b);
    }
  }

  /** A well-formed sequence at the front is decoded to the character it encodes, whatever follows. */
  lemma DecodeStepEncodeChar(c: char, rest: seq<Byte>)
    ensures DecodeStep(EncodeChar(c) + rest) == (c, |EncodeChar(c)|)
  {
    var cp := c as int;
    if cp < 0x80 {
    } else if cp < 0x800 {
      DecodeTwo(c, rest);
    } else if cp < 0x1_0000 {
      DecodeThree(c, rest);
    } else {
      DecodeFour(c, rest);
    }
  }

  lemma DecodeTwo(c: char, rest: seq<Byte>)
    requires 0x80 <= c as int < 0x800
    ensures DecodeStep(EncodeChar(c) + rest) == (c, 2)
  {
    var cp := c as int;
    var b := EncodeChar(c) + rest;
    var q, r := cp / 64, cp % 64;
    assert cp == q * 64 + r;
    assert b[0] == 0xC0 + q && b[1] == 0x80 + r;
    assert TwoByte(b[0], b[1]) == cp;
  }

  lemma DecodeThree(c: char, rest: seq<Byte>)
    requires 0x800 <= c as int < 0x1_0000
    ensures DecodeStep(EncodeChar(c) + rest) == (c, 3)
  {
    var cp := c as int;
    var b := EncodeChar(c) + rest;
    var q0, r0 := cp / 64, cp % 64;
    var q1, r1 := q0 / 64, q0 % 64;
    assert cp == q0 * 64 + r0 && q0 == q1 * 64 + r1;
    assert cp / 4096 == q1;
    assert b[0] == 0xE0 + q1 && b[1] == 0x80 + r1 && b[2] == 0x80 + r0;
    assert SecondOk(b[0], b[1]);
    assert ThreeByte(b[0], b[1], b[2]) == cp;
  }

  lemma DecodeFour(c: char, rest: seq<Byte>)
    requires 0x1_0000 <= c as int
    ensures DecodeStep(EncodeChar(c) + rest) == (c, 4)
  {
    var cp := c as int;
    var b := EncodeChar(c) + rest;
    var q0, r0 := cp / 64, cp % 64;
    var q1, r1 := q0 / 64, q0 % 64;
    var q2, r2 := q1 / 64, q1 % 64;
    assert cp == q0 * 64 + r0 && q0 == q1 * 64 + r1 && q1 == q2 * 64 + r2;
    assert cp / 4096 == q1 && cp / 262144 == q2;
    assert b[0] == 0xF0 + q2 && b[1] == 0x80 + r2 && b[2] == 0x80 + r1 && b[3] == 0x80 + r0;
    assert SecondOk(b[0], b[1]);
    assert FourByte(b[0], b[1], b[2], b[3]) == cp;
  }

  /** Decoding inverts encoding. */
  lemma {:induction false} DecodeEncode(s: string)
    ensures Decode(Encode(s)) == s
  {
    if |s| > 0 {
      var e := EncodeChar(s[0]);
      DecodeStepEncodeChar(s[0], Encode(s[1..]));
      assert (e + Encode(s[1..]))[|e|..] == Encode(s[1..]);
      DecodeEncode(s[1..]);
    }
  }

  /** The byte 0x23 occurs in an encoding exactly where the character `#` occurs in the text. */
  lemma {:induction false} EncodeHasByteIff(s: string, c: char)
    requires (c as int) < 0x80
    ensures (c as int in Encode(s)) <==> (c in s)
  {
    if |s| > 0 {
      EncodeHasByteIff(s[1..], c);
      assert s == [s[0]] + s[1..];
      var e := EncodeChar(s[0]);
      assert (c as int in e) <==> s[0] == c;
    }
  }
}
