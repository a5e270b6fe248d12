/**
 The client's relay of channel events to the local stdout and stderr: the loop, and the
 function of the incoming bytes it computes.
 */
module ClientRelay {
  import opened Prelude
  import opened Wire
  import opened Streams
  import opened Channel
  import opened Exit

  datatype RunError =
    | ReadEvent(source: EventError)
    | BadExitStatus(error: CodecError)
    | BadExitSignal(error: CodecError)
    | WriteStdout
    | WriteStderr

  /** The bytes relayed, the exit notices decoded on the way, and how the relay returns. */
  datatype Relayed = Relayed(
    stdout: Bytes,
    stderr: Bytes,
    exits: seq<ExitResult>,
    result: Result<Option<ExitResult>, RunError>)

  function Silent(r: Result<Option<ExitResult>, RunError>): Relayed {
    Relayed([], [], [], r)
  }

  function OnStdout(s: Bytes, r: Relayed): Relayed {
    r.(stdout := s + r.stdout)
  }

  function OnStderr(s: Bytes, r: Relayed): Relayed {
    r.(stderr := s + r.stderr)
  }

  function OnExit(e: ExitResult, r: Relayed): Relayed {
    r.(exits := [e] + r.exits)
  }

  /** A failed read: a clean end is the end, and after an exit result every error is. */
  function Stop(e: EventError, ending: Ending, exit: Option<ExitResult>): Relayed {
    Silent(if (e == DecodeMessageType(Short) && ending.Finished?) || exit.Some? then Ok(exit) else Err(ReadEvent(e)))
  }

  /** What the relay makes of the bytes `s`, of how the stream ends, and of the exit so far. */
  function Replay(s: Bytes, ending: Ending, exit: Option<ExitResult>): Relayed
    decreases |s|, 0
  {
    match EventAt(s)
    case Err(e) => Stop(e, ending, exit)
    case Ok(d) => EventAtShrinks(s); ReplayEvent(d.value, d.rest, ending, exit)
  }

  function ReplayEvent(e: Event, s: Bytes, ending: Ending, exit: Option<ExitResult>): Relayed
    decreases |s|, 2
  {
    match e
    case DataEvent(n) =>
      OnStdout(Within(s, n), AfterPayload(s, n, WriteStdout, ending, exit))
    case ExtendedDataEvent(_, n) =>
      OnStderr(Within(s, n), AfterPayload(s, n, WriteStderr, ending, exit))
    case NoticeEvent(t) => ReplayNotice(t, s, ending, exit)
    case CloseEvent => Silent(Ok(exit))
    case _ => Replay(s, ending, exit)
  }

  /** A stream that fails inside a payload fails the copy; one that ends there does not. */
  function AfterPayload(s: Bytes, n: nat, onError: RunError, ending: Ending, exit: Option<ExitResult>): Relayed
    decreases |s|, 1
  {
    if |s| < n && ending.Fails? then Silent(Err(onError)) else Replay(Behind(s, n), ending, exit)
  }

  /** An unknown notice ends the relay; its payload cannot be skipped. */
  function ReplayNotice(t: Bytes, s: Bytes, ending: Ending, exit: Option<ExitResult>): Relayed
    decreases |s|, 1
  {
    match DecodeNotice(t, s)
    case None => Silent(Ok(exit))
    case Some(Err(e)) => Silent(Err(if t == StatusType() then BadExitStatus(e) else BadExitSignal(e)))
    case Some(Ok(d)) => DecodeShrinks(t, s); OnExit(d.value, Replay(d.rest, ending, Some(d.value)))
  }

  lemma DecodeShrinks(t: Bytes, s: Bytes)
    ensures var d := DecodeNotice(t, s); d.Some? && d.value.Ok? ==> |d.value.value.rest| < |s|
  {
    hide StatusType, SignalType;
  }

  predicate EndsWithLastExit(r: Relayed, exit: Option<ExitResult>) {
    r.result.Ok? ==> r.result.value == if r.exits == [] then exit else Some(r.exits[|r.exits| - 1])
  }

  /** The result is the last exit notice seen, if it is not an error. */
  lemma {:induction false} ResultIsLastExit(s: Bytes, ending: Ending, exit: Option<ExitResult>)
    ensures EndsWithLastExit(Replay(s, ending, exit), exit)
    decreases |s|, 0
  {
    hide EventAt, ReplayEvent;
    match EventAt(s)
    case Err(_) =>
    case Ok(d) =>
      EventAtShrinks(s);
      EventEndsWithLastExit(d.value, d.rest, ending, exit);
  }

  lemma {:induction false} EventEndsWithLastExit(e: Event, s: Bytes, ending: Ending, exit: Option<ExitResult>)
    ensures EndsWithLastExit(ReplayEvent(e, s, ending, exit), exit)
    decreases |s|, 1
  {
    hide DecodeNotice, Replay, Within, Behind;
    match e
    case DataEvent(n) => ResultIsLastExit(Behind(s, n), ending, exit);
    case ExtendedDataEvent(_, n) => ResultIsLastExit(Behind(s, n), ending, exit);
    case NoticeEvent(t) =>
      var notice := DecodeNotice(t, s);
      if notice.Some? && notice.value.Ok? {
        DecodeShrinks(t, s);
        ResultIsLastExit(notice.value.value.rest, ending, Some(notice.value.value.value));
      }
    case CloseEvent =>
    case _ => ResultIsLastExit(s, ending, exit);
  }

  // ----- messages that carry no output -------------------------------------

  /** EOF and the replies to channel requests are passed over. */
  lemma PassedOver(n: nat, s: Bytes, ending: Ending, exit: Option<ExitResult>)
    requires n == 96 || n == 99 || n == 100
    ensures Replay(EncodeVarint(n) + s, ending, exit) == Replay(s, ending, exit)
  {
    hide EventAt, EncodeVarint;
    EventByNumber(n, s);
    ReplayUnfolds(EncodeVarint(n) + s, ending, exit);
  }

  /** Close ends the relay, whatever follows, and so does a notice of an unknown type. */
  lemma Ends(t: Bytes, s: Bytes, ending: Ending, exit: Option<ExitResult>)
    requires IsField(t) && t != StatusType() && t != SignalType()
    ensures Replay(EncodeVarint(97) + s, ending, exit) == Relayed([], [], [], Ok(exit))
    ensures Replay(EncodeFrame(Notice(t, [])) + s, ending, exit) == Relayed([], [], [], Ok(exit))
  {
    hide EventAt, EncodeVarint, EncodeFrame, ValidUtf8, StatusType, SignalType;
    EventByNumber(97, s);
    ReplayUnfolds(EncodeVarint(97) + s, ending, exit);
    FrameReadBack(Notice(t, []), s);
    OtherNoticeUnread(t, [] + s);
    ReplayUnfolds(EncodeFrame(Notice(t, [])) + s, ending, exit);
  }

  /** An unknown message, or a request that wants a reply, is an error unless an exit notice came before. */
  lemma Refuses(n: nat, t: Bytes, s: Bytes, ending: Ending, exit: Option<ExitResult>)
    requires n < 0x4000_0000_0000_0000 && !(94 <= n <= 100) && IsField(t)
    ensures Replay(EncodeVarint(n) + s, ending, exit)
            == Relayed([], [], [], if exit.Some? then Ok(exit) else Err(ReadEvent(UnexpectedMessageType(n))))
    ensures Replay([0x40, 98] + EncodeVarint(|t|) + t + [0x01] + s, ending, exit)
            == Relayed([], [], [], if exit.Some? then Ok(exit) else Err(ReadEvent(UnexpectedWantReply(t))))
  {
    hide EventAt, EncodeVarint, ValidUtf8;
    EventByNumber(n, s);
    ReplayUnfolds(EncodeVarint(n) + s, ending, exit);
    WantReplyRefused(t, s);
    ReplayUnfolds([0x40, 98] + EncodeVarint(|t|) + t + [0x01] + s, ending, exit);
  }

  /** An exit notice that does not decode is an error of its own kind, even behind another one. */
  lemma BadNotice(payload: Bytes, ending: Ending, exit: Option<ExitResult>)
    ensures DecodeExitStatus(payload).Err? ==>
              Replay(Header(Notice(StatusType(), [])) + payload, ending, exit)
              == Relayed([], [], [], Err(BadExitStatus(DecodeExitStatus(payload).error)))
    ensures DecodeExitSignal(payload).Err? ==>
              Replay(Header(Notice(SignalType(), [])) + payload, ending, exit)
              == Relayed([], [], [], Err(BadExitSignal(DecodeExitSignal(payload).error)))
  {
    StatusTypeIsField();
    SignalTypeIsField();
    TypesDiffer();
    hide EventAt, Header, ValidUtf8, StatusType, SignalType, DecodeExitStatus, DecodeExitSignal;
    HeaderReadBack(Notice(StatusType(), []), payload);
    ReplayUnfolds(Header(Notice(StatusType(), [])) + payload, ending, exit);
    HeaderReadBack(Notice(SignalType(), []), payload);
    ReplayUnfolds(Header(Notice(SignalType(), [])) + payload, ending, exit);
  }

  // ----- a stream cut short ------------------------------------------------

  predicate Shorter(a: Relayed, b: Relayed) {
    a.stdout <= b.stdout && a.stderr <= b.stderr && a.exits <= b.exits
  }

  /**
   Wherever the stream is cut, and however it ends there, the relay has written prefixes of
   what the whole stream makes it write, and has seen the first of its exit notices.
   */
  lemma {:induction false} ReplayCut(s: Bytes, k: nat, ending: Ending, ending': Ending,
                                     exit: Option<ExitResult>, exit': Option<ExitResult>)
    requires k <= |s|
    ensures Shorter(Replay(s[..k], ending, exit), Replay(s, ending', exit'))
    decreases |s|, 0
  {
    hide EventAt, DecodeNotice, ReplayEvent;
    EventCut(s, k);
    match EventAt(s[..k])
    case Err(_) =>
    case Ok(cut) =>
      var whole := EventAt(s).value;
      EventAtShrinks(s);
      assert cut.rest == whole.rest[..|cut.rest|];
      EventReplayCut(cut.value, whole.rest, |cut.rest|, ending, ending', exit, exit');
  }

  lemma {:induction false} EventReplayCut(e: Event, s: Bytes, k: nat, ending: Ending, ending': Ending,
                                          exit: Option<ExitResult>, exit': Option<ExitResult>)
    requires k <= |s|
    ensures Shorter(ReplayEvent(e, s[..k], ending, exit), ReplayEvent(e, s, ending', exit'))
    decreases |s|, 2
  {
    hide Replay, ReplayNotice, AfterPayload, Within, Shorter;
    match e
    case DataEvent(n) => PayloadCut(s, k, n, WriteStdout, ending, ending', exit, exit');
    case ExtendedDataEvent(_, n) => PayloadCut(s, k, n, WriteStderr, ending, ending', exit, exit');
    case NoticeEvent(t) => NoticeReplayCut(t, s, k, ending, ending', exit, exit');
    case CloseEvent => NothingIsShorter(Ok(exit), Silent(Ok(exit')));
    case _ => ReplayCut(s, k, ending, ending', exit, exit');
  }

  lemma NothingIsShorter(result: Result<Option<ExitResult>, RunError>, r: Relayed)
    ensures Shorter(Silent(result), r)
  {}

  lemma {:induction false} NoticeReplayCut(t: Bytes, s: Bytes, k: nat, ending: Ending, ending': Ending,
                                           exit: Option<ExitResult>, exit': Option<ExitResult>)
    requires k <= |s|
    ensures Shorter(ReplayNotice(t, s[..k], ending, exit), ReplayNotice(t, s, ending', exit'))
    decreases |s|, 1
  {
    hide DecodeNotice, Replay, Shorter;
    NoticeCut(t, s, k);
    var cut := DecodeNotice(t, s[..k]);
    if cut.Some? && cut.value.Ok? {
      var whole := DecodeNotice(t, s).value.value;
      DecodeShrinks(t, s);
      assert cut.value.value.rest == whole.rest[..|cut.value.value.rest|];
      ReplayCut(whole.rest, |cut.value.value.rest|, ending, ending', Some(whole.value), Some(whole.value));
      SameExitThen(whole.value, Replay(cut.value.value.rest, ending, Some(whole.value)),
                   Replay(whole.rest, ending', Some(whole.value)));
    } else {
      NothingIsShorter(ReplayNotice(t, s[..k], ending, exit).result, ReplayNotice(t, s, ending', exit'));
    }
  }

  lemma SameExitThen(e: ExitResult, a: Relayed, b: Relayed)
    requires Shorter(a, b)
    ensures Shorter(OnExit(e, a), OnExit(e, b))
  {}

  /** A payload that is cut is a prefix and the last thing written; one that is not is there whole. */
  lemma {:induction false} PayloadCut(s: Bytes, k: nat, n: nat, onError: RunError, ending: Ending, ending': Ending,
                                      exit: Option<ExitResult>, exit': Option<ExitResult>)
    requires k <= |s|
    ensures var p, a := Within(s[..k], n), AfterPayload(s[..k], n, onError, ending, exit);
            var q, b := Within(s, n), AfterPayload(s, n, onError, ending', exit');
            Shorter(OnStdout(p, a), OnStdout(q, b)) && Shorter(OnStderr(p, a), OnStderr(q, b))
    decreases |s|, 1
  {
    hide Replay, Shorter;
    var p, a := Within(s[..k], n), AfterPayload(s[..k], n, onError, ending, exit);
    var q, b := Within(s, n), AfterPayload(s, n, onError, ending', exit');
    if n <= k {
      assert s[..k][..n] == s[..n] && s[..k][n..] == s[n..][..k - n];
      ReplayCut(s[n..], k - n, ending, ending', exit, exit');
      SameThen(p, a, b);
    } else {
      assert Behind(s[..k], n) == [];
      NothingLeft(ending, exit);
      PrefixThen(p, a, q, b);
    }
  }

  lemma NothingLeft(ending: Ending, exit: Option<ExitResult>)
    ensures Replay([], ending, exit) == Stop(DecodeMessageType(Short), ending, exit)
  {}

  lemma SameThen(p: Bytes, a: Relayed, b: Relayed)
    requires Shorter(a, b)
    ensures Shorter(OnStdout(p, a), OnStdout(p, b)) && Shorter(OnStderr(p, a), OnStderr(p, b))
  {}

  lemma PrefixThen(p: Bytes, a: Relayed, q: Bytes, b: Relayed)
    requires p <= q && a == Silent(a.result)
    ensures Shorter(OnStdout(p, a), OnStdout(q, b)) && Shorter(OnStderr(p, a), OnStderr(q, b))
  {}

  // ----- the loop ----------------------------------------------------------

  const BUFFER: nat := 8192

  method ReadExitStatus(source: ByteSource) returns (r: Result<ExitResult, CodecError>)
    modifies source
    ensures Follows(DecodeExitStatus(old(source.rest)), r, source.rest)
  {
    var code := source.ReadVarint();
    r := if code.Err? then Err(code.error) else Ok(Status(code.value % 0x1_0000_0000));
  }

  method ReadExitSignal(source: ByteSource) returns (r: Result<ExitResult, CodecError>)
    modifies source
    ensures Follows(DecodeExitSignal(old(source.rest)), r, source.rest)
  {
    hide DecodeString, DecodeBool;
    var name := source.ReadString();
    if name.Err? {
      return Err(name.error);
    }
    var core := source.ReadBool();
    if core.Err? {
      return Err(core.error);
    }
    var message := source.ReadString();
    if message.Err? {
      return Err(message.error);
    }
    var tag := source.ReadString();
    if tag.Err? {
      return Err(tag.error);
    }
    r := Ok(Signal(name.value, core.value));
  }

  /** The payload of a notice, by its type; an unknown type is not read. */
  method ReadNotice(source: ByteSource, requestType: Bytes) returns (r: Option<Result<ExitResult, CodecError>>)
    modifies source
    ensures r.Some? <==> DecodeNotice(requestType, old(source.rest)).Some?
    ensures r.Some? ==> Follows(DecodeNotice(requestType, old(source.rest)).value, r.value, source.rest)
  {
    hide DecodeExitStatus, DecodeExitSignal, StatusType, SignalType;
    if requestType == StatusType() {
      var status := ReadExitStatus(source);
      r := Some(status);
    } else if requestType == SignalType() {
      var signal := ReadExitSignal(source);
      r := Some(signal);
    } else {
      r := None;
    }
  }

  /** The io::copy and the flush for one data message. */
  method RelayPayload(source: ByteSource, length: nat, sink: ByteSink) returns (r: CopyOutcome)
    modifies source, sink
    ensures old(sink.written) <= sink.written <= old(sink.written) + Within(old(source.rest), length)
    ensures r.Copied? ==>
              && sink.written == old(sink.written) + Within(old(source.rest), length)
              && source.rest == Behind(old(source.rest), length)
    ensures !r.WriteFailed? ==> (r.ReadFailed? <==> |old(source.rest)| < length && source.ending.Fails?)
  {
    hide Within, Behind;
    var data := new ChannelDataRead(source, length);
    r := data.Copy(sink, BUFFER);
    if r.Copied? {
      var ok := sink.Flush();
      if !ok {
        r := WriteFailed;
      }
    }
  }

  /** What is written so far, and what the rest of the stream will add, make the whole. */
  predicate OnTrack(written: Bytes, next: Bytes, start: Bytes, whole: Bytes) {
    start <= written && written + next == start + whole
  }

  /** Both outputs and the result are on track. */
  twostate predicate Tracks(stdout: ByteSink, stderr: ByteSink, next: Relayed, whole: Relayed)
    reads stdout, stderr
  {
    && OnTrack(stdout.written, next.stdout, old(stdout.written), whole.stdout)
    && OnTrack(stderr.written, next.stderr, old(stderr.written), whole.stderr)
    && next.result == whole.result
  }

  /** A copy to a local stream failed, on either side. */
  predicate CopyFailed(r: Result<Option<ExitResult>, RunError>) {
    r == Err(WriteStdout) || r == Err(WriteStderr)
  }

  /** Prefixes of both outputs are written. */
  twostate predicate Prefixes(stdout: ByteSink, stderr: ByteSink, whole: Relayed)
    reads stdout, stderr
  {
    && old(stdout.written) <= stdout.written <= old(stdout.written) + whole.stdout
    && old(stderr.written) <= stderr.written <= old(stderr.written) + whole.stderr
  }

  lemma OnTrackOn(w: Bytes, next: Bytes, start: Bytes, whole: Bytes, w': Bytes, next': Bytes)
    requires OnTrack(w, next, start, whole)
    ensures OnTrack(w', next', w, next) ==> OnTrack(w', next', start, whole)
    ensures w <= w' <= w + next ==> start <= w' <= start + whole
  {}

  /** What the loop does after one event: go on with this exit result, or return. */
  datatype Step = Continue(exit: Option<ExitResult>) | Return(r: Result<Option<ExitResult>, RunError>)

  method HandleData(source: ByteSource, length: nat, sink: ByteSink, onError: RunError, exit: Option<ExitResult>)
      returns (step: Step, ghost refused: bool)
    modifies source, sink
    ensures old(sink.written) <= sink.written <= old(sink.written) + Within(old(source.rest), length)
    ensures refused ==> step == Return(Err(onError))
    ensures !refused ==>
              if |old(source.rest)| < length && source.ending.Fails? then step == Return(Err(onError))
              else
                && sink.written == old(sink.written) + Within(old(source.rest), length)
                && step == Continue(exit) && source.rest == Behind(old(source.rest), length)
  {
    hide Within, Behind;
    var copied := RelayPayload(source, length, sink);
    refused := copied.WriteFailed?;
    step := if copied.Copied? then Continue(exit) else Return(Err(onError));
  }

  method HandleNotice(source: ByteSource, requestType: Bytes, exit: Option<ExitResult>) returns (step: Step)
    modifies source
    ensures var whole := ReplayNotice(requestType, old(source.rest), source.ending, exit);
            match step
            case Continue(exit') =>
              && |source.rest| <= |old(source.rest)| && whole.exits != []
              && whole == OnExit(whole.exits[0], Replay(source.rest, source.ending, exit'))
            case Return(r) => whole == Silent(r)
  {
    hide DecodeNotice, Replay, StatusType;
    DecodeShrinks(requestType, source.rest);
    var notice := ReadNotice(source, requestType);
    if notice.None? {
      return Return(Ok(exit));
    }
    if notice.value.Err? {
      var e := notice.value.error;
      return Return(Err(if requestType == StatusType() then BadExitStatus(e) else BadExitSignal(e)));
    }
    step := Continue(Some(notice.value.value));
  }

  method HandleEvent(event: Event, source: ByteSource, stdout: ByteSink, stderr: ByteSink, exit: Option<ExitResult>)
      returns (step: Step, ghost refused: bool)
    requires stdout != stderr
    modifies source, stdout, stderr
    ensures var whole := ReplayEvent(event, old(source.rest), source.ending, exit);
            match step
            case Continue(exit') =>
              && !refused && |source.rest| <= |old(source.rest)|
              && Tracks(stdout, stderr, Replay(source.rest, source.ending, exit'), whole)
            case Return(r) =>
              && (if refused then CopyFailed(r) else r == whole.result)
              && if CopyFailed(r) then Prefixes(stdout, stderr, whole)
                 else Tracks(stdout, stderr, Silent(r), whole)
  {
    hide Within, Behind, ReplayNotice, Replay;
    match event {
      case DataEvent(length) =>
        step, refused := HandleData(source, length, stdout, WriteStdout, exit);
      case ExtendedDataEvent(_, length) =>
        step, refused := HandleData(source, length, stderr, WriteStderr, exit);
      case NoticeEvent(requestType) =>
        refused := false;
        step := HandleNotice(source, requestType, exit);
      case CloseEvent =>
        return Return(Ok(exit)), false;
      case _ =>
        return Continue(exit), false;
    }
  }

  /** The one-shot signal that stops the stdin relay, with what was on the local streams when it was sent. */
  class DoneSignal {
    var sent: bool
    ghost var stdout: Bytes
    ghost var stderr: Bytes

    constructor ()
      ensures !sent
    {
      sent := false;
    }

    method Send(ghost stdout: Bytes, ghost stderr: Bytes)
      requires !sent
      modifies this
      ensures sent && this.stdout == stdout && this.stderr == stderr
    {
      sent, this.stdout, this.stderr := true, stdout, stderr;
    }
  }

  /**
   The relay. Unless a local stream refuses a write, it returns what `Replay` says, and it writes
   that too unless a copy failed, because of a refusal or of a read that fails inside a payload:
   prefixes are written then, and the error names the local stream. In every case the stdin relay
   is told to stop, and nothing is written after that.
   */
  method RelayOutput(reader: SshChannelReader, stdout: ByteSink, stderr: ByteSink, done: DoneSignal)
      returns (r: Result<Option<ExitResult>, RunError>, ghost refused: bool)
    requires stdout != stderr && !done.sent
    modifies reader.source, stdout, stderr, done
    ensures var whole := Replay(old(reader.source.rest), reader.source.ending, None);
            && (if refused then CopyFailed(r) else r == whole.result)
            && if CopyFailed(r) then Prefixes(stdout, stderr, whole)
               else
                 && stdout.written == old(stdout.written) + whole.stdout
                 && stderr.written == old(stderr.written) + whole.stderr
    ensures done.sent && done.stdout == stdout.written && done.stderr == stderr.written
  {
    hide Replay;
    r, refused := RelayEvents(reader, stdout, stderr);
    done.Send(stdout.written, stderr.written);
  }

  /** Its loop. */
  method RelayEvents(reader: SshChannelReader, stdout: ByteSink, stderr: ByteSink)
      returns (r: Result<Option<ExitResult>, RunError>, ghost refused: bool)
    requires stdout != stderr
    modifies reader.source, stdout, stderr
    ensures var whole := Replay(old(reader.source.rest), reader.source.ending, None);
            && (if refused then CopyFailed(r) else r == whole.result)
            && if CopyFailed(r) then Prefixes(stdout, stderr, whole)
               else
                 && stdout.written == old(stdout.written) + whole.stdout
                 && stderr.written == old(stderr.written) + whole.stderr
  {
    hide EventAt, ReplayEvent, DecodeNotice, Within, Behind;
    var source := reader.source;
    var exit: Option<ExitResult> := None;
    ghost var whole := Replay(source.rest, source.ending, None);
    refused := false;
    while true
      invariant Tracks(stdout, stderr, Replay(source.rest, source.ending, exit), whole)
      decreases |source.rest|
    {
      hide Replay, OnTrack;
      ghost var s, out, err := source.rest, stdout.written, stderr.written;
      ghost var next := Replay(s, source.ending, exit);
      EventAtShrinks(s);
      ReplayUnfolds(s, source.ending, exit);
      var event := reader.NextEvent();
      if event.Err? {
        TrackEnds(out, old(stdout.written), whole.stdout);
        TrackEnds(err, old(stderr.written), whole.stderr);
        if (event.error == DecodeMessageType(Short) && source.ending.Finished?) || exit.Some? {
          return Ok(exit), false;
        }
        return Err(ReadEvent(event.error)), false;
      }
      var step;
      step, refused := HandleEvent(event.value, source, stdout, stderr, exit);
      ghost var next' := if step.Continue? then Replay(source.rest, source.ending, step.exit) else Silent(step.r);
      OnTrackOn(out, next.stdout, old(stdout.written), whole.stdout, stdout.written, next'.stdout);
      OnTrackOn(err, next.stderr, old(stderr.written), whole.stderr, stderr.written, next'.stderr);
      if step.Return? {
        TrackEnds(stdout.written, old(stdout.written), whole.stdout);
        TrackEnds(stderr.written, old(stderr.written), whole.stderr);
        return step.r, refused;
      }
      exit := step.exit;
    }
  }

  lemma ReplayUnfolds(s: Bytes, ending: Ending, exit: Option<ExitResult>)
    ensures EventAt(s).Err? ==> Replay(s, ending, exit) == Stop(EventAt(s).error, ending, exit)
    ensures EventAt(s).Ok? ==>
              Replay(s, ending, exit) == ReplayEvent(EventAt(s).value.value, EventAt(s).value.rest, ending, exit)
  {}

  lemma TrackEnds(w: Bytes, start: Bytes, whole: Bytes)
    ensures OnTrack(w, [], start, whole) ==> w == start + whole
  {}
}
