/**
 Text as RFC 3629 writes it: Unicode scalar values, each in one to four bytes. The check of
 a received string accepts exactly what is such a text.
 */
module Utf8 {
  import opened Prelude
  import opened Wire

  /** Up to 0x10FFFF, without the surrogates. */
  type Scalar = c: int | 0 <= c < 0xD800 || 0xE000 <= c <= 0x10FFFF

  /** The table of section 3 of RFC 3629. */
  function Encode(c: Scalar): (r: Bytes)
    ensures 1 <= |r| <= 4
  {
    if c < 0x80 then [c]
    else if c < 0x800 then [0xC0 + c / 0x40, 0x80 + c % 0x40]
    else if c < 0x1_0000 then [0xE0 + c / 0x1000, 0x80 + c / 0x40 % 0x40, 0x80 + c % 0x40]
    else [0xF0 + c / 0x4_0000, 0x80 + c / 0x1000 % 0x40, 0x80 + c / 0x40 % 0x40, 0x80 + c % 0x40]
  }

  function EncodeAll(cs: seq<Scalar>): Bytes {
    if cs == [] then [] else Encode(cs[0]) + EncodeAll(cs[1..])
  }

  // ----- what the check accepts --------------------------------------------

  lemma CharIsTaken(c: Scalar, rest: Bytes)
    ensures CharLength(Encode(c) + rest) == |Encode(c)|
  {
    var e, s := Encode(c), Encode(c) + rest;
    assert forall i :: 0 <= i < |e| ==> s[i] == e[i];
    if c < 0x1_0000 {
      var high := c / 0x40;
      assert c / 0x1000 == high / 0x40;
      assert 0xD800 <= c ==> 0x380 <= high;
      assert c < 0xD800 ==> high < 0x360;
    } else {
      var high, top := c / 0x40, c / 0x1000;
      assert top == high / 0x40 && c / 0x4_0000 == top / 0x40;
      assert 0x10 <= top <= 0x10F;
    }
  }

  lemma CharIsScalar(s: Bytes) returns (c: Scalar)
    requires s != [] && CharLength(s) > 0
    ensures CharLength(s) <= |s| && s[..CharLength(s)] == Encode(c)
  {
    var n := CharLength(s);
    if n == 1 {
      c := s[0];
    } else if n == 2 {
      c := TwoBytes(s);
    } else if n == 3 {
      c := ThreeBytes(s);
    } else {
      c := FourBytes(s);
    }
  }

  lemma TwoBytes(s: Bytes) returns (c: Scalar)
    requires s != [] && CharLength(s) == 2
    ensures 2 <= |s| && s[..2] == Encode(c)
  {
    var a: int, b: int := s[0], s[1];
    var x := (a - 0xC0) * 0x40 + (b - 0x80);
    assert x / 0x40 == a - 0xC0 && x % 0x40 == b - 0x80;
    c := x;
  }

  lemma ThreeBytes(s: Bytes) returns (c: Scalar)
    requires s != [] && CharLength(s) == 3
    ensures 3 <= |s| && s[..3] == Encode(c)
  {
    var a: int, b: int, d: int := s[0], s[1], s[2];
    var high := (a - 0xE0) * 0x40 + (b - 0x80);
    assert high / 0x40 == a - 0xE0 && high % 0x40 == b - 0x80;
    var x := high * 0x40 + (d - 0x80);
    assert x / 0x40 == high && x % 0x40 == d - 0x80 && x / 0x1000 == high / 0x40;
    c := x;
  }

  lemma FourBytes(s: Bytes) returns (c: Scalar)
    requires s != [] && CharLength(s) == 4
    ensures 4 <= |s| && s[..4] == Encode(c)
  {
    var a: int, b: int, d: int, e: int := s[0], s[1], s[2], s[3];
    var top := (a - 0xF0) * 0x40 + (b - 0x80);
    assert top / 0x40 == a - 0xF0 && top % 0x40 == b - 0x80;
    var high := top * 0x40 + (d - 0x80);
    assert high / 0x40 == top && high % 0x40 == d - 0x80;
    var x := high * 0x40 + (e - 0x80);
    assert x / 0x40 == high && x % 0x40 == e - 0x80;
    assert x / 0x1000 == high / 0x40 && x / 0x4_0000 == top / 0x40;
    c := x;
  }

  lemma {:induction false} TextIsValid(cs: seq<Scalar>)
    ensures ValidUtf8(EncodeAll(cs))
  {
    if cs != [] {
      hide CharLength, Encode;
      var rest := EncodeAll(cs[1..]);
      TextIsValid(cs[1..]);
      CharIsTaken(cs[0], rest);
      assert (Encode(cs[0]) + rest)[|Encode(cs[0])|..] == rest;
    }
  }

  lemma {:induction false} ValidIsText(s: Bytes) returns (cs: seq<Scalar>)
    requires ValidUtf8(s)
    ensures EncodeAll(cs) == s
    decreases |s|
  {
    if s == [] {
      cs := [];
    } else {
      hide CharLength, Encode;
      var n := CharLength(s);
      var c := CharIsScalar(s);
      var rest := ValidIsText(s[n..]);
      cs := [c] + rest;
      assert cs[1..] == rest && s == s[..n] + s[n..];
    }
  }

  /** Bytes are a string if and only if they are the encoding of some text. */
  lemma ValidUtf8IsText(s: Bytes)
    ensures ValidUtf8(s) <==> exists cs :: EncodeAll(cs) == s
  {
    hide CharLength, Encode;
    if ValidUtf8(s) {
      var cs := ValidIsText(s);
    }
    forall cs | EncodeAll(cs) == s ensures ValidUtf8(s) {
      TextIsValid(cs);
    }
  }

  /** Any text of at most 2^20 bytes is read back; longer texts, and bytes that are no text, are refused. */
  lemma TextReadBack(s: Bytes, rest: Bytes)
    requires |s| < 0x4000_0000_0000_0000
    ensures EncodeString(s) == EncodeVarint(|s|) + s
    ensures DecodeString(EncodeVarint(|s|) + s + rest) ==
            if |s| > 0x10_0000 then Err(FieldTooLarge(|s|))
            else if exists cs :: EncodeAll(cs) == s then Ok(Decoded(s, rest))
            else Err(InvalidUtf8)
  {
    hide ValidUtf8, EncodeVarint, DecodeString, EncodeAll;
    ValidUtf8IsText(s);
    StringReadBack(s, rest);
  }
}
