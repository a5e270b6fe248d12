/**
 The server's side of a session: the select loops over process output and child exit, the
 exit notice, and the tail that ends the channel.
 */
module ServerRelay {
  import opened Prelude
  import opened Wire
  import opened Streams
  import opened Channel
  import opened Exit

  const STDERR: nat := 1
  const BUFFER: nat := 8192
  const EIO: int := 5

  datatype ProcessError =
    | ReadStdout(errno: int)
    | ReadStderr(errno: int)
    | ReadPty(errno: int)
    | Wait
    | WriteData
    | WriteExtendedData
    | SendExit
    | WriteEof
    | WriteClose
    | Shutdown

  // ----- what frames carry -------------------------------------------------

  function OutOf(f: Frame): Bytes {
    if f.Data? then f.payload else []
  }

  function ErrOf(f: Frame): Bytes {
    if f.ExtendedData? then f.payload else []
  }

  function NoticesOf(f: Frame): seq<Frame> {
    if f.Notice? then [f] else []
  }

  /** What the frames carry of one kind, in order. */
  function Collect<T>(fs: seq<Frame>, of: Frame -> seq<T>): seq<T> {
    if fs == [] then [] else Collect(fs[..|fs| - 1], of) + of(fs[|fs| - 1])
  }

  function Stdout(fs: seq<Frame>): Bytes { Collect(fs, OutOf) }

  function Stderr(fs: seq<Frame>): Bytes { Collect(fs, ErrOf) }

  function Notices(fs: seq<Frame>): seq<Frame> { Collect(fs, NoticesOf) }

  /** The messages the output relay may send for a process that ended with `status`; type 1 is stderr. */
  predicate Outputs(f: Frame, status: ExitStatus) {
    match f
    case Data(p) => 0 < |p| <= 8192
    case ExtendedData(t, p) => t == 1 && 0 < |p| <= 8192
    case Notice(_, _) => f == ExitFrame(status)
    case _ => false
  }

  predicate AllOutputs(fs: seq<Frame>, status: ExitStatus) {
    forall f :: f in fs ==> Outputs(f, status)
  }

  lemma OutputsAreReadable(fs: seq<Frame>, status: ExitStatus)
    requires AllOutputs(fs, status)
    ensures AllReadable(fs) && AllSendable(fs)
  {
    hide ExitFrame;
    forall f | f in fs
      ensures Readable(f)
    {
      assert Outputs(f, status);
    }
  }

  /** The wire after `fs`. */
  ghost predicate Sent(written: Bytes, start: Bytes, fs: seq<Frame>) {
    AllSendable(fs) && written == start + EncodeFrames(fs)
  }

  ghost predicate SentPart(written: Bytes, start: Bytes, fs: seq<Frame>) {
    AllSendable(fs) && start <= written <= start + EncodeFrames(fs)
  }

  lemma SentMore(before: Bytes, written: Bytes, start: Bytes, fs: seq<Frame>, f: Frame, ok: bool)
    requires Sent(before, start, fs) && Sendable(f) && Partial(written, before, EncodeFrame(f), ok)
    ensures SentPart(written, start, fs + [f])
    ensures ok ==> Sent(written, start, fs + [f])
  {
    EncodeFramesAppend(fs, [f]);
    assert EncodeFrames([f]) == EncodeFrame(f) + EncodeFrames([f][1..]);
    hide EncodeFrame, EncodeFrames, Partial, Sendable;
    assert EncodeFrames([f]) == EncodeFrame(f);
    BytesMore(written, start, EncodeFrames(fs), EncodeFrame(f), ok);
  }

  lemma BytesMore(written: Bytes, start: Bytes, a: Bytes, b: Bytes, ok: bool)
    requires Partial(written, start + a, b, ok)
    ensures start <= written <= start + (a + b)
    ensures ok ==> written == start + (a + b)
  {
    assert start + (a + b) == start + a + b;
  }

  lemma CollectLast<T>(fs: seq<Frame>, f: Frame, of: Frame -> seq<T>)
    ensures Collect(fs + [f], of) == Collect(fs, of) + of(f)
  {
    assert (fs + [f])[..|fs|] == fs;
  }

  lemma FrameAdded(fs: seq<Frame>, f: Frame)
    ensures Stdout(fs + [f]) == Stdout(fs) + OutOf(f)
    ensures Stderr(fs + [f]) == Stderr(fs) + ErrOf(f)
    ensures Notices(fs + [f]) == Notices(fs) + NoticesOf(f)
  {
    CollectLast(fs, f, OutOf);
    CollectLast(fs, f, ErrOf);
    CollectLast(fs, f, NoticesOf);
  }

  // ----- the process and the input relay -----------------------------------

  class SessionProcess {
    const status: ExitStatus

    constructor (status: ExitStatus)
      ensures this.status == status
    {
      this.status := status;
    }

    method Wait() returns (r: Result<ExitStatus, ProcessError>)
      ensures r == Ok(status) || r == Err(ProcessError.Wait)
    {
      var failed: bool := *;
      r := if failed then Err(ProcessError.Wait) else Ok(status);
    }
  }

  /** The one-shot sender that stops the input relay; `sentAt` is what was on the wire then. */
  class StopInput {
    var pending: bool
    ghost var sentAt: Option<Bytes>

    constructor ()
      ensures Valid() && pending
    {
      pending, sentAt := true, None;
    }

    ghost predicate Valid()
      reads this
    {
      pending <==> sentAt.None?
    }

    method Signal(ghost written: Bytes)
      requires Valid()
      modifies this
      ensures Valid() && !pending
      ensures sentAt == if old(pending) then Some(written) else old(sentAt)
    {
      if pending {
        pending, sentAt := false, Some(written);
      }
    }
  }

  method SendExitNotification(writer: SshChannelWriter, status: ExitStatus) returns (ok: bool)
    modifies writer.sink
    ensures Wrote(writer.sink, EncodeFrame(ExitFrame(status)), ok)
  {
    var f := ExitFrame(status);
    ok := writer.Notice(f.requestType, f.payload);
  }

  // ----- the output relay --------------------------------------------------

  /** The input relay was stopped when exactly the messages before the exit notice were sent. */
  ghost predicate StoppedBeforeExit(sentAt: Option<Bytes>, start: Bytes, fs: seq<Frame>)
    requires AllSendable(fs)
  {
    exists i | 0 <= i < |fs| :: fs[i].Notice? && sentAt == Some(start + EncodeFrames(fs[..i]))
  }

  /** What holds between two rounds: `out` and `err` are the bytes still to be read. */
  ghost predicate Relaying(fs: seq<Frame>, status: ExitStatus, exited: bool,
                           out: Bytes, err: Bytes, out0: Bytes, err0: Bytes)
  {
    && AllOutputs(fs, status)
    && Stdout(fs) + out == out0
    && Stderr(fs) + err == err0
    && Notices(fs) == if exited then [ExitFrame(status)] else []
  }

  ghost predicate Stopping(stop: StopInput, start: Bytes, fs: seq<Frame>, exited: bool)
    requires AllSendable(fs)
    reads stop
  {
    stop.Valid() && if exited then StoppedBeforeExit(stop.sentAt, start, fs) else stop.pending
  }

  lemma StillStopped(sentAt: Option<Bytes>, start: Bytes, fs: seq<Frame>, f: Frame)
    requires AllSendable(fs + [f]) && AllSendable(fs) && StoppedBeforeExit(sentAt, start, fs)
    ensures StoppedBeforeExit(sentAt, start, fs + [f])
  {
    hide EncodeFrames;
    var i :| 0 <= i < |fs| && fs[i].Notice? && sentAt == Some(start + EncodeFrames(fs[..i]));
    assert (fs + [f])[..i] == fs[..i] && (fs + [f])[i] == fs[i];
  }

  lemma StopsNow(start: Bytes, fs: seq<Frame>, f: Frame)
    requires f.Notice? && AllSendable(fs + [f]) && AllSendable(fs)
    ensures StoppedBeforeExit(Some(start + EncodeFrames(fs)), start, fs + [f])
  {
    hide EncodeFrames;
    assert (fs + [f])[..|fs|] == fs && (fs + [f])[|fs|] == f;
  }

  lemma RelayedMore(fs: seq<Frame>, f: Frame, status: ExitStatus, exited: bool, exited': bool,
                    out: Bytes, err: Bytes, out': Bytes, err': Bytes, out0: Bytes, err0: Bytes)
    requires Relaying(fs, status, exited, out, err, out0, err0) && Outputs(f, status)
    requires out == OutOf(f) + out' && err == ErrOf(f) + err'
    requires exited' == (exited || f.Notice?) && !(exited && f.Notice?)
    ensures Relaying(fs + [f], status, exited', out', err', out0, err0)
  {
    hide ExitFrame, Stdout, Stderr, Notices;
    FrameAdded(fs, f);
    assert Stdout(fs) + (OutOf(f) + out') == Stdout(fs) + OutOf(f) + out';
    assert Stderr(fs) + (ErrOf(f) + err') == Stderr(fs) + ErrOf(f) + err';
  }

  /** Reaps the child, stops the input relay, and sends the exit notice. */
  method ReportExit(writer: SshChannelWriter, process: SessionProcess, stop: StopInput,
                    ghost start: Bytes, ghost fs: seq<Frame>)
      returns (r: Result<ExitStatus, ProcessError>)
    requires Sent(writer.sink.written, start, fs)
    requires stop.Valid() && stop.pending
    modifies writer.sink, stop
    ensures r.Ok? ==> r.value == process.status
    ensures var all := fs + [ExitFrame(process.status)];
            && SentPart(writer.sink.written, start, all)
            && (r.Ok? ==> Sent(writer.sink.written, start, all) && Stopping(stop, start, all, true))
    ensures stop.Valid()
  {
    hide ExitFrame, EncodeFrame, Sendable, EncodeFrames;
    ghost var f := ExitFrame(process.status);
    SentMore(writer.sink.written, writer.sink.written, start, fs, f, false);
    var status := process.Wait();
    if status.Err? {
      return status;
    }
    ghost var before := writer.sink.written;
    stop.Signal(before);
    var ok := SendExitNotification(writer, status.value);
    SentMore(before, writer.sink.written, start, fs, f, ok);
    if !ok {
      return Err(SendExit);
    }
    StopsNow(start, fs, f);
    r := status;
  }

  /** One chunk of output as a frame. */
  method SendOutput(writer: SshChannelWriter, f: Frame, ghost start: Bytes, ghost fs: seq<Frame>) returns (ok: bool)
    requires f.Data? || f.ExtendedData?
    requires Sendable(f) && Sent(writer.sink.written, start, fs)
    modifies writer.sink
    ensures SentPart(writer.sink.written, start, fs + [f])
    ensures ok ==> Sent(writer.sink.written, start, fs + [f])
  {
    hide EncodeFrame, EncodeFrames;
    ghost var before := writer.sink.written;
    if f.Data? {
      ok := writer.Data(f.payload);
    } else {
      ok := writer.ExtendedData(f.dataType, f.payload);
    }
    SentMore(before, writer.sink.written, start, fs, f, ok);
  }

  /** What a failed relay leaves: part of some messages that carry prefixes of the output. */
  ghost predicate Interrupted(written: Bytes, start: Bytes, fs: seq<Frame>, status: ExitStatus,
                              out: Bytes, err: Bytes) {
    && SentPart(written, start, fs)
    && AllOutputs(fs, status)
    && Stdout(fs) <= out && Stderr(fs) <= err && |Notices(fs)| <= 1
  }

  /** What a finished relay leaves: messages that carry all the output and one exit notice. */
  ghost predicate Relayed(written: Bytes, start: Bytes, fs: seq<Frame>, status: ExitStatus, out: Bytes, err: Bytes) {
    && Sent(written, start, fs)
    && AllOutputs(fs, status)
    && Stdout(fs) == out && Stderr(fs) == err && Notices(fs) == [ExitFrame(status)]
  }

  /** A round of the select loop starts here: everything so far is sent, `out` and `err` are unread. */
  ghost predicate Round(written: Bytes, start: Bytes, fs: seq<Frame>, stop: StopInput, status: ExitStatus, exited: bool,
                        out: Bytes, err: Bytes, out0: Bytes, err0: Bytes)
    reads stop
  {
    && Sent(written, start, fs)
    && Relaying(fs, status, exited, out, err, out0, err0)
    && Stopping(stop, start, fs, exited)
  }

  lemma FirstRound(start: Bytes, stop: StopInput, status: ExitStatus, out: Bytes, err: Bytes)
    requires stop.Valid() && stop.pending
    ensures Round(start, start, [], stop, status, false, out, err, out, err)
  {
    assert start + EncodeFrames([]) == start;
  }

  /** Leaving in the middle of a round. */
  lemma CutShort(written: Bytes, start: Bytes, fs: seq<Frame>, stop: StopInput, status: ExitStatus, exited: bool,
                 out: Bytes, err: Bytes, out0: Bytes, err0: Bytes)
    requires Round(written, start, fs, stop, status, exited, out, err, out0, err0)
    ensures Interrupted(written, start, fs, status, out0, err0) && stop.Valid()
  {
    hide EncodeFrames;
  }

  /** Leaving when both outputs are read and the exit is reported. */
  lemma AllRelayed(written: Bytes, start: Bytes, fs: seq<Frame>, stop: StopInput, status: ExitStatus,
                   out0: Bytes, err0: Bytes)
    requires Round(written, start, fs, stop, status, true, [], [], out0, err0)
    ensures Relayed(written, start, fs, status, out0, err0) && stop.Valid() && !stop.pending
    ensures StoppedBeforeExit(stop.sentAt, start, fs)
  {
    hide EncodeFrames;
  }

  lemma PartRelayed(written: Bytes, start: Bytes, fs: seq<Frame>, status: ExitStatus, exited: bool,
                    out: Bytes, err: Bytes, out0: Bytes, err0: Bytes)
    requires SentPart(written, start, fs) && Relaying(fs, status, exited, out, err, out0, err0)
    ensures Interrupted(written, start, fs, status, out0, err0)
  {
    hide EncodeFrames;
  }

  /** Sends one chunk of output; `out` and `err` were unread before it was read. */
  method Forward(f: Frame, writer: SshChannelWriter, ghost start: Bytes, ghost fs: seq<Frame>, ghost stop: StopInput,
                 ghost status: ExitStatus, ghost exited: bool, ghost out: Bytes, ghost err: Bytes,
                 ghost out': Bytes, ghost err': Bytes, ghost out0: Bytes, ghost err0: Bytes)
      returns (ok: bool)
    requires Round(writer.sink.written, start, fs, stop, status, exited, out, err, out0, err0)
    requires (f.Data? || f.ExtendedData?) && Outputs(f, status)
    requires out == OutOf(f) + out' && err == ErrOf(f) + err'
    modifies writer.sink
    ensures ok ==> Round(writer.sink.written, start, fs + [f], stop, status, exited, out', err', out0, err0)
    ensures !ok ==> Interrupted(writer.sink.written, start, fs + [f], status, out0, err0)
  {
    hide EncodeFrame, EncodeFrames, ExitFrame, Relaying, Stdout, Stderr, Notices, Stopping, Interrupted;
    RelayedMore(fs, f, status, exited, exited, out, err, out', err', out0, err0);
    ok := SendOutput(writer, f, start, fs);
    StillStopping(stop, start, fs, f, exited);
    if !ok {
      PartRelayed(writer.sink.written, start, fs + [f], status, exited, out', err', out0, err0);
    }
  }

  /** Reaps the child and reports its exit. */
  method Reap(writer: SshChannelWriter, process: SessionProcess, stop: StopInput,
              ghost start: Bytes, ghost fs: seq<Frame>, ghost out: Bytes, ghost err: Bytes,
              ghost out0: Bytes, ghost err0: Bytes)
      returns (r: Result<ExitStatus, ProcessError>)
    requires Round(writer.sink.written, start, fs, stop, process.status, false, out, err, out0, err0)
    modifies writer.sink, stop
    ensures var fs' := fs + [ExitFrame(process.status)];
            if r.Ok? then
              && r.value == process.status
              && Round(writer.sink.written, start, fs', stop, process.status, true, out, err, out0, err0)
            else stop.Valid() && Interrupted(writer.sink.written, start, fs', process.status, out0, err0)
  {
    hide EncodeFrame, EncodeFrames, ExitFrame, Relaying, Stdout, Stderr, Notices, Interrupted, StoppedBeforeExit;
    ghost var f := ExitFrame(process.status);
    RelayedMore(fs, f, process.status, false, true, out, err, out, err, out0, err0);
    r := ReportExit(writer, process, stop, start, fs);
    if r.Err? {
      PartRelayed(writer.sink.written, start, fs + [f], process.status, true, out, err, out0, err0);
    }
  }

  lemma StillStopping(stop: StopInput, start: Bytes, fs: seq<Frame>, f: Frame, exited: bool)
    requires AllSendable(fs) && AllSendable(fs + [f])
    ensures Stopping(stop, start, fs, exited) ==> Stopping(stop, start, fs + [f], exited)
  {
    hide StoppedBeforeExit;
    if exited && Stopping(stop, start, fs, exited) {
      StillStopped(stop.sentAt, start, fs, f);
    }
  }

  method RelayOutputPiped(stdout: ByteSource, stderr: ByteSource, writer: SshChannelWriter,
                          process: SessionProcess, stop: StopInput)
      returns (r: Result<ExitStatus, ProcessError>, ghost fs: seq<Frame>)
    requires stdout != stderr && stop.Valid() && stop.pending
    modifies stdout, stderr, writer.sink, stop
    ensures stop.Valid()
    ensures r.Ok? ==>
              && r.value == process.status
              && stdout.ending.Finished? && stderr.ending.Finished?
              && Relayed(writer.sink.written, old(writer.sink.written), fs, process.status,
                         old(stdout.rest), old(stderr.rest))
              && !stop.pending && StoppedBeforeExit(stop.sentAt, old(writer.sink.written), fs)
    ensures r.Err? ==>
              Interrupted(writer.sink.written, old(writer.sink.written), fs, process.status,
                          old(stdout.rest), old(stderr.rest))
  {
    hide Round, ExitFrame, Interrupted, Relayed, StoppedBeforeExit;
    ghost var start, out0, err0 := writer.sink.written, stdout.rest, stderr.rest;
    fs := [];
    var stdoutDone, stderrDone := false, false;
    var exitStatus: Option<ExitStatus> := None;
    FirstRound(start, stop, process.status, out0, err0);
    while !stdoutDone || !stderrDone
      invariant Round(writer.sink.written, start, fs, stop, process.status, exitStatus.Some?,
                      stdout.rest, stderr.rest, out0, err0)
      invariant exitStatus.Some? ==> exitStatus.value == process.status
      invariant stdoutDone ==> stdout.rest == [] && stdout.ending.Finished?
      invariant stderrDone ==> stderr.rest == [] && stderr.ending.Finished?
      decreases |stdout.rest| + |stderr.rest|, !stdoutDone, !stderrDone, exitStatus.None?
    {
      ghost var exited, out, err := exitStatus.Some?, stdout.rest, stderr.rest;
      CutShort(writer.sink.written, start, fs, stop, process.status, exited, out, err, out0, err0);
      if {
        case !stdoutDone =>
          var n := stdout.Read(BUFFER);
          if n.Err? {
            return Err(ReadStdout(n.error)), fs;
          }
          if n.value == [] {
            stdoutDone := true;
          } else {
            var f := Frame.Data(n.value);
            var ok := Forward(f, writer, start, fs, stop, process.status, exited,
                              out, err, stdout.rest, stderr.rest, out0, err0);
            fs := fs + [f];
            if !ok {
              return Err(WriteData), fs;
            }
          }
        case !stderrDone =>
          var n := stderr.Read(BUFFER);
          if n.Err? {
            return Err(ReadStderr(n.error)), fs;
          }
          if n.value == [] {
            stderrDone := true;
          } else {
            var f := Frame.ExtendedData(STDERR, n.value);
            var ok := Forward(f, writer, start, fs, stop, process.status, exited,
                              out, err, stdout.rest, stderr.rest, out0, err0);
            fs := fs + [f];
            if !ok {
              return Err(WriteExtendedData), fs;
            }
          }
        case exitStatus.None? =>
          var status := Reap(writer, process, stop, start, fs, out, err, out0, err0);
          fs := fs + [ExitFrame(process.status)];
          if status.Err? {
            return status, fs;
          }
          exitStatus := Some(status.value);
      }
    }
    if exitStatus.Some? {
      r := Ok(exitStatus.value);
    } else {
      r := Reap(writer, process, stop, start, fs, [], [], out0, err0);
      fs := fs + [ExitFrame(process.status)];
    }
    if r.Ok? {
      AllRelayed(writer.sink.written, start, fs, stop, process.status, out0, err0);
    }
  }

  /** The same for a terminal: one stream, which ends with EIO when the last holder closes it. */
  method RelayOutputPty(master: ByteSource, writer: SshChannelWriter, process: SessionProcess, stop: StopInput)
      returns (r: Result<ExitStatus, ProcessError>, ghost fs: seq<Frame>)
    requires stop.Valid() && stop.pending
    modifies master, writer.sink, stop
    ensures stop.Valid()
    ensures r.Ok? ==>
              && r.value == process.status
              && (master.ending.Finished? || master.ending == Fails(5))
              && Relayed(writer.sink.written, old(writer.sink.written), fs, process.status, old(master.rest), [])
              && !stop.pending && StoppedBeforeExit(stop.sentAt, old(writer.sink.written), fs)
    ensures r.Err? ==>
              Interrupted(writer.sink.written, old(writer.sink.written), fs, process.status, old(master.rest), [])
  {
    hide Round, ExitFrame, Interrupted, Relayed, StoppedBeforeExit;
    ghost var start, out0 := writer.sink.written, master.rest;
    fs := [];
    var open := true;
    var exitStatus: Option<ExitStatus> := None;
    FirstRound(start, stop, process.status, out0, []);
    while open
      invariant Round(writer.sink.written, start, fs, stop, process.status, exitStatus.Some?, master.rest, [], out0, [])
      invariant exitStatus.Some? ==> exitStatus.value == process.status
      invariant !open ==> master.rest == [] && (master.ending.Finished? || master.ending == Fails(EIO))
      decreases |master.rest|, open, exitStatus.None?
    {
      ghost var exited, out := exitStatus.Some?, master.rest;
      CutShort(writer.sink.written, start, fs, stop, process.status, exited, out, [], out0, []);
      if {
        case true =>
          var n := master.Read(BUFFER);
          if n.Err? && n.error != EIO {
            return Err(ReadPty(n.error)), fs;
          }
          if n.Err? || n.value == [] {
            open := false;
          } else {
            var f := Frame.Data(n.value);
            var ok := Forward(f, writer, start, fs, stop, process.status, exited, out, [], master.rest, [], out0, []);
            fs := fs + [f];
            if !ok {
              return Err(WriteData), fs;
            }
          }
        case exitStatus.None? =>
          var status := Reap(writer, process, stop, start, fs, out, [], out0, []);
          fs := fs + [ExitFrame(process.status)];
          if status.Err? {
            return status, fs;
          }
          exitStatus := Some(status.value);
      }
    }
    if exitStatus.Some? {
      r := Ok(exitStatus.value);
    } else {
      r := Reap(writer, process, stop, start, fs, [], [], out0, []);
      fs := fs + [ExitFrame(process.status)];
    }
    if r.Ok? {
      AllRelayed(writer.sink.written, start, fs, stop, process.status, out0, []);
    }
  }

  // ----- the end of the channel --------------------------------------------

  /** The messages that end every channel. */
  const TAIL: seq<Frame> := [Eof, Close]

  /** EOF, Close and the shutdown of the stream. */
  method FinishChannel(writer: SshChannelWriter, ghost start: Bytes, ghost fs: seq<Frame>)
      returns (r: Result<(), ProcessError>)
    requires Sent(writer.sink.written, start, fs)
    modifies writer.sink
    ensures SentPart(writer.sink.written, start, fs + TAIL)
    ensures r.Ok? ==> Sent(writer.sink.written, start, fs + TAIL)
  {
    hide EncodeFrame, EncodeFrames;
    assert fs + TAIL == fs + [Eof] + [Close];
    ghost var before := writer.sink.written;
    var ok := writer.Eof();
    SentMore(before, writer.sink.written, start, fs, Eof, ok);
    if !ok {
      PartOfMore(writer.sink.written, start, fs + [Eof], [Close]);
      return Err(WriteEof);
    }
    before := writer.sink.written;
    ok := writer.Close();
    SentMore(before, writer.sink.written, start, fs + [Eof], Close, ok);
    if !ok {
      return Err(WriteClose);
    }
    ok := writer.sink.Flush();
    r := if ok then Ok(()) else Err(Shutdown);
  }

  lemma PartOfMore(written: Bytes, start: Bytes, fs: seq<Frame>, more: seq<Frame>)
    requires SentPart(written, start, fs) && AllSendable(more)
    ensures SentPart(written, start, fs + more)
  {
    hide EncodeFrames;
    EncodeFramesAppend(fs, more);
    assert start + (EncodeFrames(fs) + EncodeFrames(more)) == start + EncodeFrames(fs) + EncodeFrames(more);
  }

  /** The whole stream of a session: output, one exit notice, EOF, Close, and nothing behind. */
  ghost predicate Complete(written: Bytes, start: Bytes, fs: seq<Frame>, status: ExitStatus, out: Bytes, err: Bytes) {
    && AllOutputs(fs, status)
    && Stdout(fs) == out && Stderr(fs) == err && Notices(fs) == [ExitFrame(status)]
    && Sent(written, start, fs + TAIL)
  }

  /** What an interrupted session leaves: a part of such a stream, with prefixes of the output. */
  ghost predicate Cut(written: Bytes, start: Bytes, fs: seq<Frame>, status: ExitStatus, out: Bytes, err: Bytes) {
    && AllOutputs(fs, status)
    && Stdout(fs) <= out && Stderr(fs) <= err && |Notices(fs)| <= 1
    && SentPart(written, start, fs + TAIL)
  }

  /** A piped session that is not shut down from outside. */
  method RunPiped(stdout: ByteSource, stderr: ByteSource, writer: SshChannelWriter,
                  process: SessionProcess, stop: StopInput)
      returns (r: Result<(), ProcessError>, ghost fs: seq<Frame>)
    requires stdout != stderr && stop.Valid() && stop.pending
    modifies stdout, stderr, writer.sink, stop
    ensures stop.Valid() && !stop.pending
    ensures r.Ok? ==>
              && Complete(writer.sink.written, old(writer.sink.written), fs, process.status,
                          old(stdout.rest), old(stderr.rest))
              && AllSendable(fs) && StoppedBeforeExit(stop.sentAt, old(writer.sink.written), fs)
    ensures r.Err? ==>
              Cut(writer.sink.written, old(writer.sink.written), fs, process.status,
                  old(stdout.rest), old(stderr.rest))
  {
    hide EncodeFrame, EncodeFrames, ExitFrame, Stdout, Stderr, Notices, StoppedBeforeExit;
    ghost var start := writer.sink.written;
    var relayed;
    relayed, fs := RelayOutputPiped(stdout, stderr, writer, process, stop);
    if relayed.Ok? {
      r := FinishChannel(writer, start, fs);
    } else {
      r := Err(relayed.error);
      PartOfMore(writer.sink.written, start, fs, TAIL);
    }
    stop.Signal(writer.sink.written);
  }

  method RunPty(master: ByteSource, writer: SshChannelWriter, process: SessionProcess, stop: StopInput)
      returns (r: Result<(), ProcessError>, ghost fs: seq<Frame>)
    requires stop.Valid() && stop.pending
    modifies master, writer.sink, stop
    ensures stop.Valid() && !stop.pending
    ensures r.Ok? ==>
              && Complete(writer.sink.written, old(writer.sink.written), fs, process.status, old(master.rest), [])
              && AllSendable(fs) && StoppedBeforeExit(stop.sentAt, old(writer.sink.written), fs)
    ensures r.Err? ==>
              Cut(writer.sink.written, old(writer.sink.written), fs, process.status, old(master.rest), [])
  {
    hide EncodeFrame, EncodeFrames, ExitFrame, Stdout, Stderr, Notices, StoppedBeforeExit;
    ghost var start := writer.sink.written;
    var relayed;
    relayed, fs := RelayOutputPty(master, writer, process, stop);
    if relayed.Ok? {
      r := FinishChannel(writer, start, fs);
    } else {
      r := Err(relayed.error);
      PartOfMore(writer.sink.written, start, fs, TAIL);
    }
    stop.Signal(writer.sink.written);
  }
}
