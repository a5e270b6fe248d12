/**
 Bytes on a stream: variable-length integers (section 16 of RFC 9000), strings and booleans.
 The functions say what a decoder makes of the bytes that are still to come; `Short` is the
 error of a stream that ends too early.
 */
module Wire {
  import opened Prelude

  type byte = b: int | 0 <= b < 256

  type Bytes = seq<byte>

  const MAX_VARINT: nat := 0x4000_0000_0000_0000
  const MAX_REMOTE_FIELD_SIZE: nat := 0x10_0000

  datatype CodecError = Short | FieldTooLarge(length: nat) | InvalidUtf8 | InvalidBool(b: byte)

  /** A decoded value and the bytes behind it. */
  datatype Decoded<+T> = Decoded(value: T, rest: Bytes)

  // ----- big-endian numbers ------------------------------------------------

  function BigEndian(x: nat, n: nat): (r: Bytes)
    ensures |r| == n
  {
    if n == 0 then [] else BigEndian(x / 256, n - 1) + [x % 256]
  }

  function FromBigEndian(s: Bytes): nat {
    if s == [] then 0 else 256 * FromBigEndian(s[..|s| - 1]) + s[|s| - 1]
  }

  function Pow256(n: nat): nat {
    if n == 0 then 1 else 256 * Pow256(n - 1)
  }

  lemma {:induction false} BigEndianInverse(x: nat, n: nat)
    requires x < Pow256(n)
    ensures FromBigEndian(BigEndian(x, n)) == x
  {
    if n > 0 {
      BigEndianInverse(x / 256, n - 1);
      assert BigEndian(x, n)[..n - 1] == BigEndian(x / 256, n - 1);
    }
  }

  lemma {:induction false} FromBigEndianFits(s: Bytes)
    ensures FromBigEndian(s) < Pow256(|s|)
    ensures BigEndian(FromBigEndian(s), |s|) == s
  {
    if s != [] {
      var init, last := s[..|s| - 1], s[|s| - 1];
      FromBigEndianFits(init);
      assert FromBigEndian(s) / 256 == FromBigEndian(init) && FromBigEndian(s) % 256 == last;
      assert s == init + [last];
    }
  }

  // ----- variable-length integers ------------------------------------------

  /** The two high bits of the first byte give the length: 1, 2, 4 or 8 bytes. */
  function LengthOf(tag: nat): (n: nat)
    requires tag < 4
    ensures n > 0
  {
    if tag == 0 then 1 else if tag == 1 then 2 else if tag == 2 then 4 else 8
  }

  /** The number of values of the low `n - 1` bytes. */
  function Low(tag: nat): (p: nat)
    requires tag < 4
    ensures p == Pow256(LengthOf(tag) - 1)
  {
    assert Pow256(1) == 256;
    assert Pow256(3) == 256 * Pow256(2) && Pow256(2) == 256 * Pow256(1);
    assert Pow256(7) == 256 * Pow256(6) && Pow256(6) == 256 * Pow256(5) && Pow256(5) == 256 * Pow256(4);
    assert Pow256(4) == 256 * Pow256(3);
    if tag == 0 then 1 else if tag == 1 then 0x100 else if tag == 2 then 0x100_0000 else 0x100_0000_0000_0000
  }

  /** The shortest form that holds `v`. */
  function TagFor(v: nat): (tag: nat)
    requires v < MAX_VARINT
    ensures tag < 4 && v < 64 * Low(tag)
    ensures tag > 0 ==> 64 * Low(tag - 1) <= v
  {
    if v < 0x40 then 0 else if v < 0x4000 then 1 else if v < 0x4000_0000 then 2 else 3
  }

  function EncodeVarint(v: nat): (r: Bytes)
    requires v < MAX_VARINT
    ensures r != []
  {
    var tag := TagFor(v);
    [64 * tag + v / Low(tag)] + BigEndian(v % Low(tag), LengthOf(tag) - 1)
  }

  function DecodeVarint(s: Bytes): Result<Decoded<nat>, CodecError> {
    if s == [] then Err(Short)
    else
      var tag := s[0] / 64;
      var n := LengthOf(tag);
      if |s| < n then Err(Short)
      else Ok(Decoded(s[0] % 64 * Low(tag) + FromBigEndian(s[1..n]), s[n..]))
  }

  lemma VarintRoundTrip(v: nat, rest: Bytes)
    requires v < MAX_VARINT
    ensures DecodeVarint(EncodeVarint(v) + rest) == Ok(Decoded(v, rest))
  {
    var tag := TagFor(v);
    var n, p := LengthOf(tag), Low(tag);
    BigEndianInverse(v % p, n - 1);
    var s := EncodeVarint(v) + rest;
    assert s[1..n] == BigEndian(v % p, n - 1) && s[n..] == rest;
    assert s[0] / 64 == tag && s[0] % 64 == v / p;
  }

  /** The length that section 16 of RFC 9000 gives a first byte. */
  function FormLength(first: byte): nat {
    if first < 0x40 then 1 else if first < 0x80 then 2 else if first < 0xC0 then 4 else 8
  }

  /** The number in an integer of that length: its bytes without the two that say how long it is. */
  function NumberIn(e: Bytes): int
    requires |e| == 1 || |e| == 2 || |e| == 4 || |e| == 8
  {
    var b: seq<int> := e;
    if |b| == 1 then b[0]
    else if |b| == 2 then (b[0] - 0x40) * 0x100 + b[1]
    else if |b| == 4 then (b[0] - 0x80) * 0x100_0000 + b[1] * 0x1_0000 + b[2] * 0x100 + b[3]
    else (b[0] - 0xC0) * 0x100_0000_0000_0000 + b[1] * 0x1_0000_0000_0000 + b[2] * 0x100_0000_0000
         + b[3] * 0x1_0000_0000 + b[4] * 0x100_0000 + b[5] * 0x1_0000 + b[6] * 0x100 + b[7]
  }

  lemma FromBigEndianLast(s: Bytes, n: nat)
    requires 1 < n <= |s|
    ensures FromBigEndian(s[1..n]) == 256 * FromBigEndian(s[1..n - 1]) + s[n - 1]
  {
    assert s[1..n][..n - 2] == s[1..n - 1];
  }

  /** Every integer on the stream, in its shortest form or not, and every one that is cut. */
  lemma VarintForms(s: Bytes)
    ensures DecodeVarint(s) ==
            if s == [] || |s| < FormLength(s[0]) then Err(Short)
            else Ok(Decoded(NumberIn(s[..FormLength(s[0])]), s[FormLength(s[0])..]))
  {
    if s != [] && |s| >= FormLength(s[0]) {
      var n := FormLength(s[0]);
      if n >= 2 { FromBigEndianLast(s, 2); }
      if n >= 4 { FromBigEndianLast(s, 3); FromBigEndianLast(s, 4); }
      if n >= 8 { EightBytes(s); }
      hide FromBigEndian;
    }
  }

  lemma EightBytes(s: Bytes)
    requires |s| >= 8
    ensures var b: seq<int> := s;
            FromBigEndian(s[1..8]) == FromBigEndian(s[1..4]) * 0x1_0000_0000
                                      + b[4] * 0x100_0000 + b[5] * 0x1_0000 + b[6] * 0x100 + b[7]
  {
    FromBigEndianLast(s, 5);
    FromBigEndianLast(s, 6);
    FromBigEndianLast(s, 7);
    FromBigEndianLast(s, 8);
    hide FromBigEndian;
  }

  /** What is written is the shortest such form of the number. */
  lemma VarintWritten(v: nat)
    requires v < 0x4000_0000_0000_0000
    ensures var e := EncodeVarint(v);
            && |e| == (if v < 0x40 then 1 else if v < 0x4000 then 2 else if v < 0x4000_0000 then 4 else 8)
            && |e| == FormLength(e[0]) && NumberIn(e) == v
  {
    var e := EncodeVarint(v);
    VarintRoundTrip(v, []);
    assert e + [] == e;
    VarintForms(e);
    assert e[..|e|] == e;
    hide DecodeVarint, NumberIn, BigEndian;
  }

  /** A cut stream gives the same integer or none. */
  lemma VarintCut(s: Bytes, k: nat)
    requires k <= |s|
    ensures match DecodeVarint(s[..k])
            case Err(e) => e == Short
            case Ok(d) =>
              && DecodeVarint(s).Ok? && DecodeVarint(s).value.value == d.value
              && d.rest <= DecodeVarint(s).value.rest
              && |DecodeVarint(s).value.rest| - |d.rest| == |s| - k
    ensures DecodeVarint(s).Err? ==> DecodeVarint(s[..k]) == Err(Short)
  {
    if k > 0 {
      var n := LengthOf(s[0] / 64);
      if n <= k {
        assert s[..k][1..n] == s[1..n];
        assert s[..k][n..] == s[n..][..k - n];
      }
    }
  }

  // ----- UTF-8 -------------------------------------------------------------

  predicate Between(s: Bytes, i: nat, lo: byte, hi: byte) {
    i < |s| && lo <= s[i] <= hi
  }

  /** How many bytes the first character takes, 0 if it is not well formed (RFC 3629). */
  function CharLength(s: Bytes): nat
    requires s != []
  {
    var b := s[0];
    if b < 0x80 then 1
    else if 0xC2 <= b <= 0xDF && Between(s, 1, 0x80, 0xBF) then 2
    else if && 0xE0 <= b <= 0xEF
            && Between(s, 1, if b == 0xE0 then 0xA0 else 0x80, if b == 0xED then 0x9F else 0xBF)
            && Between(s, 2, 0x80, 0xBF) then 3
    else if && 0xF0 <= b <= 0xF4
            && Between(s, 1, if b == 0xF0 then 0x90 else 0x80, if b == 0xF4 then 0x8F else 0xBF)
            && Between(s, 2, 0x80, 0xBF) && Between(s, 3, 0x80, 0xBF) then 4
    else 0
  }

  predicate ValidUtf8(s: Bytes) {
    s == [] || (CharLength(s) > 0 && ValidUtf8(s[CharLength(s)..]))
  }

  predicate IsAscii(s: string) {
    forall i :: 0 <= i < |s| ==> s[i] as int < 128
  }

  /** The bytes of an ASCII string. */
  function Ascii(s: string): (r: Bytes)
    requires IsAscii(s)
    ensures |r| == |s| && forall i :: 0 <= i < |s| ==> r[i] == s[i] as int
  {
    if s == [] then [] else [s[0] as int] + Ascii(s[1..])
  }

  lemma {:induction false} AsciiIsValid(s: Bytes)
    requires forall i :: 0 <= i < |s| ==> s[i] < 0x80
    ensures ValidUtf8(s)
  {
    if s != [] {
      AsciiIsValid(s[1..]);
    }
  }

  // ----- strings and booleans ----------------------------------------------

  /** What an SshString may hold and still be read back by the peer. */
  predicate IsField(s: Bytes) {
    ValidUtf8(s) && |s| <= MAX_REMOTE_FIELD_SIZE
  }

  function EncodeString(s: Bytes): Bytes
    requires |s| < MAX_VARINT
  {
    EncodeVarint(|s|) + s
  }

  function CheckedLength(n: nat): Result<nat, CodecError> {
    if n > MAX_REMOTE_FIELD_SIZE then Err(FieldTooLarge(n)) else Ok(n)
  }

  /** `n` bytes exactly. */
  function DecodeExact(s: Bytes, n: nat): Result<Decoded<Bytes>, CodecError> {
    if |s| < n then Err(Short) else Ok(Decoded(s[..n], s[n..]))
  }

  /** SshBytes: a length of at most 2^20 and that many bytes. */
  function DecodeBytes(s: Bytes): Result<Decoded<Bytes>, CodecError> {
    match DecodeVarint(s)
    case Err(e) => Err(e)
    case Ok(len) =>
      match CheckedLength(len.value)
      case Err(e) => Err(e)
      case Ok(n) => DecodeExact(len.rest, n)
  }

  /** SshString: the same, and the bytes are UTF-8. */
  function DecodeString(s: Bytes): Result<Decoded<Bytes>, CodecError> {
    match DecodeBytes(s)
    case Err(e) => Err(e)
    case Ok(d) => if ValidUtf8(d.value) then Ok(d) else Err(InvalidUtf8)
  }

  /** What the peer reads of any bytes: themselves, or that they are too long. */
  lemma BytesReadBack(s: Bytes, rest: Bytes)
    requires |s| < MAX_VARINT
    ensures DecodeBytes(EncodeString(s) + rest) ==
            if |s| > MAX_REMOTE_FIELD_SIZE then Err(FieldTooLarge(|s|)) else Ok(Decoded(s, rest))
  {
    hide EncodeVarint, DecodeVarint;
    assert EncodeString(s) + rest == EncodeVarint(|s|) + (s + rest);
    VarintRoundTrip(|s|, s + rest);
    assert (s + rest)[..|s|] == s && (s + rest)[|s|..] == rest;
  }

  /** What the peer reads: the string itself if it is valid and not too long, an error otherwise. */
  lemma StringReadBack(s: Bytes, rest: Bytes)
    requires |s| < MAX_VARINT
    ensures |s| > MAX_REMOTE_FIELD_SIZE ==> DecodeString(EncodeString(s) + rest) == Err(FieldTooLarge(|s|))
    ensures |s| <= MAX_REMOTE_FIELD_SIZE && !ValidUtf8(s) ==> DecodeString(EncodeString(s) + rest) == Err(InvalidUtf8)
    ensures IsField(s) ==> DecodeString(EncodeString(s) + rest) == Ok(Decoded(s, rest))
  {
    hide ValidUtf8, EncodeString, DecodeBytes;
    BytesReadBack(s, rest);
  }

  lemma BytesCut(s: Bytes, k: nat)
    requires k <= |s|
    ensures match DecodeBytes(s[..k])
            case Err(e) => e == Short || DecodeBytes(s) == Err(e)
            case Ok(d) =>
              && DecodeBytes(s).Ok? && DecodeBytes(s).value.value == d.value
              && d.rest <= DecodeBytes(s).value.rest
              && |DecodeBytes(s).value.rest| - |d.rest| == |s| - k
  {
    VarintCut(s, k);
    if DecodeVarint(s[..k]).Ok? {
      var r, r' := DecodeVarint(s).value.rest, DecodeVarint(s[..k]).value.rest;
      var n := DecodeVarint(s).value.value;
      if n <= |r'| {
        assert r'[..n] == r[..n];
        assert r' == r[..|r'|];
        assert r'[n..] == r[n..][..|r'| - n];
      }
    }
  }

  lemma StringCut(s: Bytes, k: nat)
    requires k <= |s|
    ensures match DecodeString(s[..k])
            case Err(e) => e == Short || DecodeString(s) == Err(e)
            case Ok(d) =>
              && DecodeString(s).Ok? && DecodeString(s).value.value == d.value
              && d.rest <= DecodeString(s).value.rest
              && |DecodeString(s).value.rest| - |d.rest| == |s| - k
  {
    BytesCut(s, k);
    hide ValidUtf8, DecodeBytes;
  }

  function EncodeBool(b: bool): Bytes { [if b then 1 else 0] }

  function DecodeBool(s: Bytes): Result<Decoded<bool>, CodecError> {
    if s == [] then Err(Short)
    else if s[0] == 0 then Ok(Decoded(false, s[1..]))
    else if s[0] == 1 then Ok(Decoded(true, s[1..]))
    else Err(InvalidBool(s[0]))
  }

  lemma BoolRoundTrip(b: bool, rest: Bytes)
    ensures DecodeBool(EncodeBool(b) + rest) == Ok(Decoded(b, rest))
    ensures EncodeBool(b) == [if b then 0x01 else 0x00]
  {
    assert (EncodeBool(b) + rest)[1..] == rest;
  }

  /** No other byte is a boolean. */
  lemma OtherBytesAreNoBool(b: byte, rest: Bytes)
    ensures DecodeBool([b] + rest) == if b == 0x00 then Ok(Decoded(false, rest))
                                      else if b == 0x01 then Ok(Decoded(true, rest))
                                      else Err(InvalidBool(b))
  {
    assert ([b] + rest)[1..] == rest;
  }

  lemma BoolCut(s: Bytes, k: nat)
    requires k <= |s|
    ensures match DecodeBool(s[..k])
            case Err(e) => e == Short || DecodeBool(s) == Err(e)
            case Ok(d) =>
              && DecodeBool(s).Ok? && DecodeBool(s).value.value == d.value
              && d.rest <= DecodeBool(s).value.rest
              && |DecodeBool(s).value.rest| - |d.rest| == |s| - k
  {}
}
