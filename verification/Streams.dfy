/**
 Byte streams as the codec sees them: a source that hands out its bytes in chunks of any
 size, a sink that may fail part-way, and the decoders that read field by field.
 */
module Streams {
  import opened Prelude
  import opened Wire

  /** How a stream ends once its bytes are used up: end of file, or an error. */
  datatype Ending = Finished | Fails(errno: int)

  /** `r` and the bytes still to come are what `d` says. */
  predicate Follows<T(==), E(==)>(d: Result<Decoded<T>, E>, r: Result<T, E>, rest: Bytes) {
    match d
    case Err(e) => r == Err(e)
    case Ok(x) => r == Ok(x.value) && rest == x.rest
  }

  class ByteSource {
    var rest: Bytes
    const ending: Ending

    constructor (bytes: Bytes, ending: Ending)
      ensures rest == bytes && this.ending == ending
    {
      rest := bytes;
      this.ending := ending;
    }

    /** One read into a buffer of `cap` bytes: any nonempty prefix that fits. */
    method Read(cap: nat) returns (r: Result<Bytes, int>)
      modifies this
      ensures r.Ok? ==> |r.value| <= cap && old(rest) == r.value + rest
      ensures r.Ok? && r.value == [] && cap > 0 ==> rest == [] && ending.Finished?
      ensures r.Err? ==> cap > 0 && old(rest) == rest == [] && ending == Fails(r.error)
    {
      if cap == 0 {
        r := Ok([]);
      } else if rest == [] {
        r := if ending.Finished? then Ok([]) else Err(ending.errno);
      } else {
        var n :| 0 < n <= cap && n <= |rest|;
        r := Ok(rest[..n]);
        rest := rest[n..];
      }
    }

    /** Reads until `n` bytes are there. */
    method ReadExact(n: nat) returns (r: Result<Bytes, CodecError>)
      modifies this
      ensures Follows(DecodeExact(old(rest), n), r, rest)
    {
      var got: Bytes := [];
      while |got| < n
        invariant |got| <= n && old(rest) == got + rest
      {
        var chunk := Read(n - |got|);
        if chunk.Err? || chunk.value == [] {
          return Err(Short);
        }
        got := got + chunk.value;
      }
      r := Ok(got);
    }

    method ReadVarint() returns (r: Result<nat, CodecError>)
      modifies this
      ensures Follows(DecodeVarint(old(rest)), r, rest)
    {
      var first := ReadExact(1);
      if first.Err? {
        return Err(first.error);
      }
      var tag := first.value[0] / 64;
      ghost var behind := rest;
      assert old(rest) == first.value + behind;
      var low := ReadExact(LengthOf(tag) - 1);
      if low.Err? {
        return Err(low.error);
      }
      assert old(rest)[1..LengthOf(tag)] == low.value;
      r := Ok(first.value[0] % 64 * Low(tag) + FromBigEndian(low.value));
    }

    method ReadBytes() returns (r: Result<Bytes, CodecError>)
      modifies this
      ensures Follows(DecodeBytes(old(rest)), r, rest)
    {
      var len := ReadVarint();
      if len.Err? {
        return Err(len.error);
      }
      var checked := CheckedLength(len.value);
      if checked.Err? {
        return Err(checked.error);
      }
      r := ReadExact(checked.value);
    }

    method ReadString() returns (r: Result<Bytes, CodecError>)
      modifies this
      ensures Follows(DecodeString(old(rest)), r, rest)
    {
      var buf := ReadBytes();
      if buf.Err? {
        return Err(buf.error);
      }
      r := if ValidUtf8(buf.value) then buf else Err(InvalidUtf8);
    }

    method ReadBool() returns (r: Result<bool, CodecError>)
      modifies this
      ensures Follows(DecodeBool(old(rest)), r, rest)
    {
      var b := ReadExact(1);
      if b.Err? {
        return Err(b.error);
      }
      r := if b.value[0] == 0 then Ok(false) else if b.value[0] == 1 then Ok(true) else Err(InvalidBool(b.value[0]));
    }
  }

  class ByteSink {
    var written: Bytes

    constructor ()
      ensures written == []
    {
      written := [];
    }

    /** Writes everything, or fails after any part of it. */
    method WriteAll(s: Bytes) returns (ok: bool)
      modifies this
      ensures old(written) <= written <= old(written) + s
      ensures ok ==> written == old(written) + s
    {
      ok := *;
      if ok {
        written := written + s;
      } else {
        var n :| 0 <= n <= |s|;
        written := written + s[..n];
      }
    }

    method Flush() returns (ok: bool) {
      ok := *;
    }
  }
}
