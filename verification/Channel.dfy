/**
 Channel messages (sections 5.2 to 5.4 of RFC 4254): what SshChannelWriter puts on the
 stream, what SshChannelReader::next_event makes of it, and the bounded payload reader.
 */
module Channel {
  import opened Prelude
  import opened Wire
  import opened Streams

  const CHANNEL_DATA := 94
  const CHANNEL_EXTENDED_DATA := 95
  const CHANNEL_EOF := 96
  const CHANNEL_CLOSE := 97
  const CHANNEL_REQUEST := 98
  const CHANNEL_SUCCESS := 99
  const CHANNEL_FAILURE := 100

  // ----- what is written ---------------------------------------------------

  /** One call of the writer. A notice carries its payload already encoded. */
  datatype Frame =
    | Data(payload: Bytes)
    | ExtendedData(dataType: nat, payload: Bytes)
    | Notice(requestType: Bytes, payload: Bytes)
    | Eof
    | Close

  /** The numbers fit a variable-length integer. */
  predicate Sendable(f: Frame) {
    match f
    case Data(p) => |p| < MAX_VARINT
    case ExtendedData(t, p) => t < MAX_VARINT && |p| < MAX_VARINT
    case Notice(t, _) => |t| < MAX_VARINT
    case _ => true
  }

  function Header(f: Frame): Bytes
    requires Sendable(f)
  {
    match f
    case Data(p) => EncodeVarint(CHANNEL_DATA) + EncodeVarint(|p|)
    case ExtendedData(t, p) => EncodeVarint(CHANNEL_EXTENDED_DATA) + EncodeVarint(t) + EncodeVarint(|p|)
    case Notice(t, _) => EncodeVarint(CHANNEL_REQUEST) + EncodeString(t) + EncodeBool(false)
    case Eof => EncodeVarint(CHANNEL_EOF)
    case Close => EncodeVarint(CHANNEL_CLOSE)
  }

  function Payload(f: Frame): Bytes {
    match f
    case Data(p) => p
    case ExtendedData(_, p) => p
    case Notice(_, p) => p
    case _ => []
  }

  function EncodeFrame(f: Frame): (r: Bytes)
    requires Sendable(f)
    ensures r != []
  {
    Header(f) + Payload(f)
  }

  predicate AllSendable(fs: seq<Frame>) {
    forall f :: f in fs ==> Sendable(f)
  }

  function EncodeFrames(fs: seq<Frame>): Bytes
    requires AllSendable(fs)
  {
    if fs == [] then [] else EncodeFrame(fs[0]) + EncodeFrames(fs[1..])
  }

  lemma {:induction false} EncodeFramesAppend(a: seq<Frame>, b: seq<Frame>)
    requires AllSendable(a) && AllSendable(b)
    ensures EncodeFrames(a + b) == EncodeFrames(a) + EncodeFrames(b)
  {
    hide EncodeFrame, Sendable;
    if a == [] {
      assert a + b == b;
    } else {
      EncodeFramesAppend(a[1..], b);
      assert (a + b)[1..] == a[1..] + b;
    }
  }

  // ----- what is read ------------------------------------------------------

  /** An event, with the number of payload bytes that are announced. */
  datatype Event =
    | DataEvent(length: nat)
    | ExtendedDataEvent(dataType: nat, length: nat)
    | NoticeEvent(requestType: Bytes)
    | SuccessEvent
    | FailureEvent
    | EofEvent
    | CloseEvent

  datatype EventError =
    | DecodeMessageType(source: CodecError)
    | DecodeData(source: CodecError)
    | DecodeExtendedDataType(source: CodecError)
    | DecodeExtendedData(source: CodecError)
    | DecodeRequestType(source: CodecError)
    | DecodeWantReply(source: CodecError)
    | UnexpectedWantReply(requestType: Bytes)
    | UnexpectedMessageType(messageType: nat)

  function DataAt(s: Bytes): Result<Decoded<Event>, EventError> {
    match DecodeVarint(s)
    case Err(e) => Err(DecodeData(e))
    case Ok(len) => Ok(Decoded(DataEvent(len.value), len.rest))
  }

  function ExtendedDataAt(s: Bytes): Result<Decoded<Event>, EventError> {
    match DecodeVarint(s)
    case Err(e) => Err(DecodeExtendedDataType(e))
    case Ok(t) =>
      match DecodeVarint(t.rest)
      case Err(e) => Err(DecodeExtendedData(e))
      case Ok(len) => Ok(Decoded(ExtendedDataEvent(t.value, len.value), len.rest))
  }

  function RequestAt(s: Bytes): Result<Decoded<Event>, EventError> {
    match DecodeString(s)
    case Err(e) => Err(DecodeRequestType(e))
    case Ok(t) =>
      match DecodeBool(t.rest)
      case Err(e) => Err(DecodeWantReply(e))
      case Ok(want) =>
        if want.value then Err(UnexpectedWantReply(t.value))
        else Ok(Decoded(NoticeEvent(t.value), want.rest))
  }

  /** The next event of a stream that has `s` to offer. */
  function EventAt(s: Bytes): Result<Decoded<Event>, EventError> {
    match DecodeVarint(s)
    case Err(e) => Err(DecodeMessageType(e))
    case Ok(d) =>
      if d.value == CHANNEL_DATA then DataAt(d.rest)
      else if d.value == CHANNEL_EXTENDED_DATA then ExtendedDataAt(d.rest)
      else if d.value == CHANNEL_REQUEST then RequestAt(d.rest)
      else if d.value == CHANNEL_SUCCESS then Ok(Decoded(SuccessEvent, d.rest))
      else if d.value == CHANNEL_FAILURE then Ok(Decoded(FailureEvent, d.rest))
      else if d.value == CHANNEL_EOF then Ok(Decoded(EofEvent, d.rest))
      else if d.value == CHANNEL_CLOSE then Ok(Decoded(CloseEvent, d.rest))
      else Err(UnexpectedMessageType(d.value))
  }

  /** The event a frame is meant to be. */
  function EventOf(f: Frame): Event {
    match f
    case Data(p) => DataEvent(|p|)
    case ExtendedData(t, p) => ExtendedDataEvent(t, |p|)
    case Notice(t, _) => NoticeEvent(t)
    case Eof => EofEvent
    case Close => CloseEvent
  }

  // ----- the messages by their numbers -------------------------------------

  /** The bytes of each message: number, fields, payload; a notice wants no reply. */
  lemma FrameBytes(f: Frame)
    requires Sendable(f)
    ensures EncodeFrame(f) ==
            match f
            case Data(p) => [0x40, 94] + EncodeVarint(|p|) + p
            case ExtendedData(t, p) => [0x40, 95] + EncodeVarint(t) + EncodeVarint(|p|) + p
            case Notice(t, p) => [0x40, 98] + EncodeVarint(|t|) + t + [0x00] + p
            case Eof => [0x40, 96]
            case Close => [0x40, 97]
  {
    NumberBytes(CHANNEL_DATA);
    NumberBytes(CHANNEL_EXTENDED_DATA);
    NumberBytes(CHANNEL_REQUEST);
    NumberBytes(CHANNEL_EOF);
    NumberBytes(CHANNEL_CLOSE);
    hide EncodeVarint;
    if f.Notice? {
      var t := EncodeVarint(|f.requestType|);
      assert [0x40, 98] + (t + f.requestType) == [0x40, 98] + t + f.requestType;
    }
  }

  lemma NumberBytes(n: nat)
    requires 0x40 <= n < 0x100
    ensures EncodeVarint(n) == [0x40, n]
  {
    assert BigEndian(n % 0x100, 1) == BigEndian(0, 0) + [n];
  }

  /** Every message number, those of replies and unknown ones included. */
  lemma EventByNumber(n: nat, s: Bytes)
    requires n < 0x4000_0000_0000_0000
    ensures EventAt(EncodeVarint(n) + s) ==
            match n
            case 94 => DataAt(s)
            case 95 => ExtendedDataAt(s)
            case 96 => Ok(Decoded(EofEvent, s))
            case 97 => Ok(Decoded(CloseEvent, s))
            case 98 => RequestAt(s)
            case 99 => Ok(Decoded(SuccessEvent, s))
            case 100 => Ok(Decoded(FailureEvent, s))
            case _ => Err(UnexpectedMessageType(n))
  {
    VarintRoundTrip(n, s);
    hide EncodeVarint, DecodeVarint;
  }

  /** A request that wants a reply is refused, and named. */
  lemma WantReplyRefused(t: Bytes, s: Bytes)
    requires IsField(t)
    ensures EventAt([0x40, 98] + EncodeVarint(|t|) + t + [0x01] + s) == Err(UnexpectedWantReply(t))
  {
    NumberBytes(98);
    var rest := EncodeString(t) + ([0x01] + s);
    assert [0x40, 98] + EncodeVarint(|t|) + t + [0x01] + s == EncodeVarint(98) + rest;
    EventByNumber(98, rest);
    StringReadBack(t, [0x01] + s);
    OtherBytesAreNoBool(0x01, s);
    hide EncodeVarint, DecodeVarint, DecodeString, IsField;
  }

  // ----- round trips -------------------------------------------------------

  predicate Readable(f: Frame) {
    Sendable(f) && (f.Notice? ==> IsField(f.requestType))
  }

  predicate AllReadable(fs: seq<Frame>) {
    forall f :: f in fs ==> Readable(f)
  }

  /** The header gives the event back, whatever follows, exactly for readable frames. */
  lemma HeaderReadBack(f: Frame, tail: Bytes)
    requires Sendable(f)
    ensures EventAt(Header(f) + tail) == Ok(Decoded(EventOf(f), tail)) <==> Readable(f)
  {
    hide EncodeVarint, DecodeVarint, IsField;
    match f {
      case Data(p) =>
        assert Header(f) + tail == EncodeVarint(CHANNEL_DATA) + (EncodeVarint(|p|) + tail);
        VarintRoundTrip(CHANNEL_DATA, EncodeVarint(|p|) + tail);
        VarintRoundTrip(|p|, tail);
      case ExtendedData(_, _) =>
        ExtendedReadBack(f, tail);
      case Notice(_, _) =>
        NoticeReadBack(f, tail);
      case Eof =>
        VarintRoundTrip(CHANNEL_EOF, tail);
      case Close =>
        VarintRoundTrip(CHANNEL_CLOSE, tail);
    }
  }

  lemma ExtendedReadBack(f: Frame, tail: Bytes)
    requires Sendable(f) && f.ExtendedData?
    ensures EventAt(Header(f) + tail) == Ok(Decoded(EventOf(f), tail))
  {
    hide EncodeVarint, DecodeVarint, IsField;
    var lengthOn := EncodeVarint(|f.payload|) + tail;
    var typeOn := EncodeVarint(f.dataType) + lengthOn;
    assert Header(f) + tail == EncodeVarint(CHANNEL_EXTENDED_DATA) + typeOn;
    VarintRoundTrip(CHANNEL_EXTENDED_DATA, typeOn);
    VarintRoundTrip(f.dataType, lengthOn);
    VarintRoundTrip(|f.payload|, tail);
  }

  lemma NoticeReadBack(f: Frame, tail: Bytes)
    requires Sendable(f) && f.Notice?
    ensures EventAt(Header(f) + tail) == Ok(Decoded(EventOf(f), tail)) <==> Readable(f)
  {
    hide EncodeVarint, DecodeVarint, EncodeString, DecodeString;
    var wantOn := EncodeBool(false) + tail;
    var typeOn := EncodeString(f.requestType) + wantOn;
    assert Header(f) + tail == EncodeVarint(CHANNEL_REQUEST) + typeOn;
    VarintRoundTrip(CHANNEL_REQUEST, typeOn);
    StringReadBack(f.requestType, wantOn);
    BoolRoundTrip(false, tail);
  }

  /** The reader gets the event back, and stands at the payload, exactly for readable frames. */
  lemma FrameReadBack(f: Frame, rest: Bytes)
    requires Sendable(f)
    ensures EventAt(EncodeFrame(f) + rest) == Ok(Decoded(EventOf(f), Payload(f) + rest)) <==> Readable(f)
  {
    hide Header, EventAt, Readable, EventOf;
    assert EncodeFrame(f) + rest == Header(f) + (Payload(f) + rest);
    HeaderReadBack(f, Payload(f) + rest);
  }

  /** Notice payloads are not length-prefixed: their decoder tells how long they are. */
  type Sizes = (Bytes, Bytes) -> Option<nat>

  /**
   Repeated next_event, with each payload consumed: the frames on the stream, or none if some
   message does not decode.
   */
  function ReadFrames(s: Bytes, size: Sizes): Option<seq<Frame>>
    decreases |s|, 0
  {
    if s == [] then Some([])
    else
      match EventAt(s)
      case Err(_) => None
      case Ok(d) => EventAtShrinks(s); ReadPayload(d.value, d.rest, size)
  }

  function ReadPayload(e: Event, s: Bytes, size: Sizes): Option<seq<Frame>>
    decreases |s|, 1
  {
    match e
    case DataEvent(n) =>
      if |s| < n then None else Consed(Data(s[..n]), ReadFrames(s[n..], size))
    case ExtendedDataEvent(t, n) =>
      if |s| < n then None else Consed(ExtendedData(t, s[..n]), ReadFrames(s[n..], size))
    case NoticeEvent(t) =>
      (match size(t, s)
       case None => None
       case Some(n) => if |s| < n then None else Consed(Notice(t, s[..n]), ReadFrames(s[n..], size)))
    case EofEvent => Consed(Eof, ReadFrames(s, size))
    case CloseEvent => Consed(Close, ReadFrames(s, size))
    case _ => None
  }

  function Consed(f: Frame, fs: Option<seq<Frame>>): Option<seq<Frame>> {
    if fs.None? then None else Some([f] + fs.value)
  }

  lemma EventAtShrinks(s: Bytes)
    ensures EventAt(s).Ok? ==> |EventAt(s).value.rest| < |s|
  {}

  /** The payload decoder stops exactly where the payload ends. */
  ghost predicate SelfDelimiting(f: Frame, size: Sizes) {
    f.Notice? ==> forall rest: Bytes :: size(f.requestType, f.payload + rest) == Some(|f.payload|)
  }

  lemma PayloadReadBack(f: Frame, tail: Bytes, size: Sizes)
    requires SelfDelimiting(f, size)
    ensures ReadPayload(EventOf(f), Payload(f) + tail, size) == Consed(f, ReadFrames(tail, size))
  {
    hide ReadFrames;
    var n := |Payload(f)|;
    assert (Payload(f) + tail)[..n] == Payload(f) && (Payload(f) + tail)[n..] == tail;
  }

  /** Any list of frames is read back as the same list. */
  lemma {:induction false} FramesRoundTrip(fs: seq<Frame>, size: Sizes)
    requires AllReadable(fs)
    requires forall f :: f in fs ==> SelfDelimiting(f, size)
    ensures AllSendable(fs) && ReadFrames(EncodeFrames(fs), size) == Some(fs)
  {
    hide EncodeFrame, EventAt, Payload, EventOf, IsField;
    if fs != [] {
      var f, fs' := fs[0], fs[1..];
      assert f in fs && forall g :: g in fs' ==> g in fs;
      assert Readable(f) && AllReadable(fs');
      var tail := EncodeFrames(fs');
      FrameReadBack(f, tail);
      FramesRoundTrip(fs', size);
      assert SelfDelimiting(f, size);
      var s := Payload(f) + tail;
      assert s[..|Payload(f)|] == Payload(f) && s[|Payload(f)|..] == tail;
      PayloadReadBack(f, tail, size);
      assert [f] + fs' == fs;
    }
  }

  // ----- a stream cut short ------------------------------------------------

  predicate IsShort(e: EventError) {
    !e.UnexpectedWantReply? && !e.UnexpectedMessageType? && e.source == Short
  }

  /** Cutting the stream gives the same event with less behind it, the same error, or a short read. */
  lemma EventCut(s: Bytes, k: nat)
    requires k <= |s|
    ensures match EventAt(s[..k])
            case Err(e) => IsShort(e) || EventAt(s) == Err(e)
            case Ok(d) =>
              && EventAt(s).Ok? && EventAt(s).value.value == d.value
              && d.rest <= EventAt(s).value.rest
              && |EventAt(s).value.rest| - |d.rest| == |s| - k
  {
    VarintCut(s, k);
    if DecodeVarint(s[..k]).Ok? {
      var d, c := DecodeVarint(s).value, DecodeVarint(s[..k]).value;
      assert c.rest == d.rest[..|c.rest|];
      if d.value == CHANNEL_DATA {
        VarintCut(d.rest, |c.rest|);
      } else if d.value == CHANNEL_EXTENDED_DATA {
        ExtendedCut(d.rest, |c.rest|);
      } else if d.value == CHANNEL_REQUEST {
        RequestCut(d.rest, |c.rest|);
      }
    }
  }

  /** A header that is not all there is a short read: of the number, or of a field behind it. */
  lemma HeaderCut(f: Frame, k: nat)
    requires Readable(f) && k < |Header(f)|
    ensures var r := EventAt(Header(f)[..k]);
            r.Err? && IsShort(r.error) && (r.error.DecodeMessageType? <==> k < 2)
  {
    hide EventAt, IsField, IsShort;
    var h := Header(f);
    HeaderReadBack(f, []);
    assert h + [] == h;
    EventCut(h, k);
    NumberFirst(f);
    NumberCut(h, k);
  }

  /** Every message begins with a number of two bytes. */
  lemma NumberFirst(f: Frame)
    requires Sendable(f)
    ensures |Header(f)| >= 2 && Header(f)[0] == 0x40
  {
    NumberBytes(CHANNEL_DATA);
    NumberBytes(CHANNEL_EXTENDED_DATA);
    NumberBytes(CHANNEL_REQUEST);
    NumberBytes(CHANNEL_EOF);
    NumberBytes(CHANNEL_CLOSE);
    hide EncodeVarint;
  }

  lemma NumberCut(h: Bytes, k: nat)
    requires |h| >= 2 && h[0] == 0x40 && k <= |h|
    ensures EventAt(h[..k]).Err? && EventAt(h[..k]).error.DecodeMessageType? <==> k < 2
  {
    VarintForms(h[..k]);
    hide DecodeVarint;
  }

  lemma ExtendedCut(s: Bytes, k: nat)
    requires k <= |s|
    ensures match ExtendedDataAt(s[..k])
            case Err(e) => IsShort(e) || ExtendedDataAt(s) == Err(e)
            case Ok(d) =>
              && ExtendedDataAt(s).Ok? && ExtendedDataAt(s).value.value == d.value
              && d.rest <= ExtendedDataAt(s).value.rest
              && |ExtendedDataAt(s).value.rest| - |d.rest| == |s| - k
  {
    VarintCut(s, k);
    if DecodeVarint(s[..k]).Ok? {
      var d, c := DecodeVarint(s).value, DecodeVarint(s[..k]).value;
      assert c.rest == d.rest[..|c.rest|];
      VarintCut(d.rest, |c.rest|);
    }
  }

  lemma RequestCut(s: Bytes, k: nat)
    requires k <= |s|
    ensures match RequestAt(s[..k])
            case Err(e) => IsShort(e) || RequestAt(s) == Err(e)
            case Ok(d) =>
              && RequestAt(s).Ok? && RequestAt(s).value.value == d.value
              && d.rest <= RequestAt(s).value.rest
              && |RequestAt(s).value.rest| - |d.rest| == |s| - k
  {
    StringCut(s, k);
    if DecodeString(s[..k]).Ok? {
      var d, c := DecodeString(s).value, DecodeString(s[..k]).value;
      assert c.rest == d.rest[..|c.rest|];
      BoolCut(d.rest, |c.rest|);
    }
  }

  // ----- the writer --------------------------------------------------------

  /** What is left of writing `s` behind `start`: all of it, or any part of it after a failure. */
  predicate Partial(written: Bytes, start: Bytes, s: Bytes, ok: bool) {
    start <= written <= start + s && (ok ==> written == start + s)
  }

  twostate predicate Wrote(sink: ByteSink, s: Bytes, ok: bool)
    reads sink
  {
    Partial(sink.written, old(sink.written), s, ok)
  }

  class SshChannelWriter {
    const sink: ByteSink

    constructor (sink: ByteSink)
      ensures this.sink == sink
    {
      this.sink := sink;
    }

    /** One encode call of several; nothing more is written once one has failed. */
    method Put(go: bool, s: Bytes, ghost start: Bytes, ghost done: Bytes) returns (ok: bool)
      requires Partial(sink.written, start, done, go)
      modifies sink
      ensures Partial(sink.written, start, done + s, ok)
    {
      ok := go;
      if ok {
        assert start + done + s == start + (done + s);
        ok := sink.WriteAll(s);
      }
    }

    method Flush(go: bool, ghost start: Bytes, ghost done: Bytes) returns (ok: bool)
      requires Partial(sink.written, start, done, go)
      ensures Partial(sink.written, start, done, ok)
    {
      ok := go;
      if ok { ok := sink.Flush(); }
    }

    method Data(data: Bytes) returns (ok: bool)
      requires Sendable(Frame.Data(data))
      modifies sink
      ensures Wrote(sink, EncodeFrame(Frame.Data(data)), ok)
    {
      ghost var start, t, n := sink.written, EncodeVarint(CHANNEL_DATA), EncodeVarint(|data|);
      assert Partial(sink.written, start, [], true);
      hide Partial, EncodeVarint;
      assert [] + t == t;
      ok := Put(true, EncodeVarint(CHANNEL_DATA), start, []);
      ok := Put(ok, EncodeVarint(|data|), start, t);
      ok := Put(ok, data, start, t + n);
      ok := Flush(ok, start, t + n + data);
    }

    method ExtendedData(dataType: nat, data: Bytes) returns (ok: bool)
      requires Sendable(Frame.ExtendedData(dataType, data))
      modifies sink
      ensures Wrote(sink, EncodeFrame(Frame.ExtendedData(dataType, data)), ok)
    {
      ghost var start, t, d, n :=
        sink.written, EncodeVarint(CHANNEL_EXTENDED_DATA), EncodeVarint(dataType), EncodeVarint(|data|);
      assert Partial(sink.written, start, [], true);
      hide Partial, EncodeVarint;
      assert [] + t == t;
      ok := Put(true, EncodeVarint(CHANNEL_EXTENDED_DATA), start, []);
      ok := Put(ok, EncodeVarint(dataType), start, t);
      ok := Put(ok, EncodeVarint(|data|), start, t + d);
      ok := Put(ok, data, start, t + d + n);
      ok := Flush(ok, start, t + d + n + data);
    }

    method Eof() returns (ok: bool)
      modifies sink
      ensures Wrote(sink, EncodeFrame(Frame.Eof), ok)
    {
      ok := sink.WriteAll(EncodeVarint(CHANNEL_EOF));
      if ok { ok := sink.Flush(); }
    }

    method Close() returns (ok: bool)
      modifies sink
      ensures Wrote(sink, EncodeFrame(Frame.Close), ok)
    {
      ok := sink.WriteAll(EncodeVarint(CHANNEL_CLOSE));
      if ok { ok := sink.Flush(); }
    }

    method Notice(requestType: Bytes, payload: Bytes) returns (ok: bool)
      requires Sendable(Frame.Notice(requestType, payload))
      modifies sink
      ensures Wrote(sink, EncodeFrame(Frame.Notice(requestType, payload)), ok)
    {
      ghost var start, t, r, w :=
        sink.written, EncodeVarint(CHANNEL_REQUEST), EncodeString(requestType), EncodeBool(false);
      assert Partial(sink.written, start, [], true);
      hide Partial, EncodeVarint, EncodeString, EncodeBool;
      assert [] + t == t;
      ok := Put(true, EncodeVarint(CHANNEL_REQUEST), start, []);
      ok := Put(ok, EncodeString(requestType), start, t);
      ok := Put(ok, EncodeBool(false), start, t + r);
      ok := Put(ok, payload, start, t + r + w);
      ok := Flush(ok, start, t + r + w + payload);
    }
  }

  // ----- the reader --------------------------------------------------------

  class SshChannelReader {
    const source: ByteSource

    constructor (source: ByteSource)
      ensures this.source == source
    {
      this.source := source;
    }

    method NextEvent() returns (r: Result<Event, EventError>)
      modifies source
      ensures Follows(EventAt(old(source.rest)), r, source.rest)
    {
      var messageType := source.ReadVarint();
      if messageType.Err? {
        return Err(DecodeMessageType(messageType.error));
      }
      var t := messageType.value;
      if t == CHANNEL_DATA {
        var len := source.ReadVarint();
        r := if len.Err? then Err(DecodeData(len.error)) else Ok(DataEvent(len.value));
      } else if t == CHANNEL_EXTENDED_DATA {
        var dataType := source.ReadVarint();
        if dataType.Err? {
          return Err(DecodeExtendedDataType(dataType.error));
        }
        var len := source.ReadVarint();
        r := if len.Err? then Err(DecodeExtendedData(len.error)) else Ok(ExtendedDataEvent(dataType.value, len.value));
      } else if t == CHANNEL_REQUEST {
        r := NextRequest();
      } else if t == CHANNEL_SUCCESS {
        r := Ok(SuccessEvent);
      } else if t == CHANNEL_FAILURE {
        r := Ok(FailureEvent);
      } else if t == CHANNEL_EOF {
        r := Ok(EofEvent);
      } else if t == CHANNEL_CLOSE {
        r := Ok(CloseEvent);
      } else {
        r := Err(UnexpectedMessageType(t));
      }
    }

    method NextRequest() returns (r: Result<Event, EventError>)
      modifies source
      ensures Follows(RequestAt(old(source.rest)), r, source.rest)
    {
      var requestType := source.ReadString();
      if requestType.Err? {
        return Err(DecodeRequestType(requestType.error));
      }
      var wantReply := source.ReadBool();
      if wantReply.Err? {
        return Err(DecodeWantReply(wantReply.error));
      }
      r := if wantReply.value then Err(UnexpectedWantReply(requestType.value)) else Ok(NoticeEvent(requestType.value));
    }
  }

  // ----- the bounded payload reader ----------------------------------------

  /** What a payload of `length` bytes has to give if the stream holds `s`. */
  function Within(s: Bytes, length: nat): (r: Bytes)
    ensures r <= s && |r| <= length
  {
    if |s| < length then s else s[..length]
  }

  /** The stream behind such a payload. */
  function Behind(s: Bytes, length: nat): (r: Bytes)
    ensures |r| <= |s|
  {
    if |s| < length then [] else s[length..]
  }

  class ChannelDataRead {
    const reader: ByteSource
    var remaining: nat

    constructor (reader: ByteSource, length: nat)
      ensures this.reader == reader && remaining == length
    {
      this.reader := reader;
      remaining := length;
    }

    /** What is still to come of the payload. */
    function Contents(): Bytes
      reads this, reader
    {
      Within(reader.rest, remaining)
    }

    function Next(): Bytes
      reads this, reader
    {
      Behind(reader.rest, remaining)
    }

    method PollRead(cap: nat) returns (r: Result<Bytes, int>)
      modifies this, reader
      ensures r.Ok? ==> |r.value| <= cap && old(Contents()) == r.value + Contents()
      ensures r.Ok? ==> |r.value| + remaining == old(remaining) && old(reader.rest) == r.value + reader.rest
      ensures r.Ok? && r.value == [] && cap > 0 ==>
                Contents() == [] && (remaining == 0 || (reader.rest == [] && reader.ending.Finished?))
      ensures r.Err? ==> cap > 0 && 0 < remaining == old(remaining) && reader.ending == Fails(r.error)
                         && old(reader.rest) == reader.rest == []
      ensures Next() == old(Next())
    {
      if remaining == 0 {
        return Ok([]);
      }
      hide Within, Behind;
      ghost var before, length := reader.rest, remaining;
      var maxRead := if remaining < cap then remaining else cap;
      r := reader.Read(maxRead);
      if r.Ok? {
        remaining := remaining - |r.value|;
        PayloadTaken(before, length, r.value, reader.rest);
      } else {
        PayloadTaken(before, length, [], reader.rest);
      }
      NothingLeftWithin(reader.rest, remaining);
    }

    /**
     Any caller: buffers of any sizes, one poll each. Nothing is lost, reordered or taken
     from behind the payload.
     */
    method PollAll(caps: seq<nat>) returns (chunks: seq<Bytes>, failed: bool)
      modifies this, reader
      ensures |chunks| <= |caps| && forall i :: 0 <= i < |chunks| ==> |chunks[i]| <= caps[i]
      ensures !failed ==> |chunks| == |caps|
      ensures failed ==> Contents() == [] && remaining > 0 && reader.ending.Fails?
      ensures old(Contents()) == Flatten(chunks) + Contents()
      ensures |Flatten(chunks)| + remaining == old(remaining)
      ensures Next() == old(Next())
    {
      ghost var whole := Contents();
      chunks := [];
      assert Flatten<byte>([]) == [];
      hide Within, Behind, Flatten;
      failed := false;
      while |chunks| < |caps|
        invariant |chunks| <= |caps| && forall i :: 0 <= i < |chunks| ==> |chunks[i]| <= caps[i]
        invariant whole == Flatten(chunks) + Contents()
        invariant |Flatten(chunks)| + remaining == old(remaining)
        invariant Next() == old(Next())
      {
        ghost var before := Contents();
        var r := PollRead(caps[|chunks|]);
        if r.Err? {
          return chunks, true;
        }
        FlattenSnoc(chunks, r.value);
        Regroup(Flatten(chunks), r.value, Contents());
        chunks := chunks + [r.value];
      }
    }

    /** The read_all convenience: the whole payload, or an error if the stream ends first. */
    method ReadAll() returns (r: Result<Bytes, CodecError>)
      modifies this, reader
      ensures r == if |old(reader.rest)| < old(remaining) then Err(Short) else Ok(old(reader.rest)[..old(remaining)])
      ensures r.Ok? ==> remaining == 0 && reader.rest == old(Next())
    {
      hide Within;
      var n := remaining;
      var got: Bytes := [];
      while |got| < n
        invariant |got| + remaining == n
        invariant old(reader.rest) == got + reader.rest
        decreases remaining
      {
        hide Behind;
        ghost var before := got;
        var chunk := PollRead(n - |got|);
        if chunk.Err? || chunk.value == [] {
          return Err(Short);
        }
        Regroup(before, chunk.value, reader.rest);
        got := got + chunk.value;
      }
      r := Ok(got);
    }

    /**
     The io::copy of the payload to a local stream, with `cap` bytes of buffer: it reads as long
     as there is room behind what it has read since the buffer was last empty, and writes as much
     as it can without waiting. It stops without an error when the stream ends inside the payload.
     A failing read returns at once, whatever the buffer still holds.
     */
    method Copy(sink: ByteSink, cap: nat) returns (r: CopyOutcome)
      requires cap > 0
      modifies this, reader, sink
      ensures old(sink.written) <= sink.written <= old(sink.written) + old(Contents())
      ensures r.Copied? ==>
                && sink.written == old(sink.written) + old(Contents()) && reader.rest == old(Next())
                && !(|old(reader.rest)| < old(remaining) && reader.ending.Fails?)
      ensures r.ReadFailed? ==>
                && |old(reader.rest)| < old(remaining) && reader.ending.Fails?
                && |old(sink.written)| + |old(Contents())| < |sink.written| + cap
    {
      ghost var length, before := remaining, reader.rest;
      var buffer: Bytes, used, ended := [], 0, false;
      while true
        invariant remaining <= length && old(sink.written) <= sink.written
        invariant sink.written + buffer + Contents() == old(sink.written) + old(Contents())
        invariant Next() == old(Next())
        invariant |reader.rest| < remaining <==> |before| < length
        invariant |buffer| <= used <= cap && (buffer == [] ==> used == 0)
        invariant ended ==> buffer != [] && Contents() == []
        invariant ended ==> remaining == 0 || (reader.rest == [] && reader.ending.Finished?)
        decreases remaining, !ended, |buffer|
      {
        hide Within, Behind;
        var left := remaining;
        ghost var written, held := sink.written, buffer;
        if used < cap && !ended {
          var chunk := PollRead(cap - used);
          if chunk.Err? {
            Unwritten(sink.written, buffer, Contents(), old(sink.written), old(Contents()));
            return ReadFailed;
          }
          Regroup(written + held, chunk.value, Contents());
          buffer, used := buffer + chunk.value, used + |chunk.value|;
          ended := chunk.value == [];
        }
        var n :| 0 <= n <= |buffer| && (buffer != [] && (ended || remaining == left) ==> 0 < n);
        Pieces(written, buffer, n, Contents());
        var ok := sink.WriteAll(buffer[..n]);
        if !ok {
          return WriteFailed;
        }
        buffer := buffer[n..];
        if buffer == [] {
          used := 0;
          if ended {
            ok := sink.Flush();
            return if ok then Copied else WriteFailed;
          }
        }
      }
    }
  }

  /** The first bytes of a payload and what is left of it and behind it. */
  lemma PayloadTaken(s: Bytes, length: nat, taken: Bytes, rest: Bytes)
    requires s == taken + rest && |taken| <= length
    ensures Within(s, length) == taken + Within(rest, length - |taken|)
    ensures Behind(s, length) == Behind(rest, length - |taken|)
  {
    if |s| >= length {
      assert s[..length] == taken + rest[..length - |taken|] && s[length..] == rest[length - |taken|..];
    }
  }

  lemma NothingLeftWithin(s: Bytes, length: nat)
    ensures s == [] || length == 0 ==> Within(s, length) == []
  {}

  /** What is not written when the reading ends is in the buffer. */
  lemma Unwritten(written: Bytes, buffer: Bytes, contents: Bytes, start: Bytes, whole: Bytes)
    requires written + buffer + contents == start + whole && contents == []
    ensures |start| + |whole| == |written| + |buffer| && written <= start + whole
  {}

  /** Writing moves bytes from the buffer to the sink. */
  lemma Pieces(written: Bytes, buffer: Bytes, n: nat, contents: Bytes)
    requires n <= |buffer|
    ensures written + buffer + contents == (written + buffer[..n]) + buffer[n..] + contents
  {
    assert buffer == buffer[..n] + buffer[n..];
  }

  datatype CopyOutcome = Copied | ReadFailed | WriteFailed
}
