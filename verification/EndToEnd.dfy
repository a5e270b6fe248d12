/** The server's output relay, the wire and the client's relay put together. */
module EndToEnd {
  import opened Prelude
  import opened Wire
  import opened Streams
  import opened Channel
  import opened Exit
  import opened ServerRelay
  import Client = ClientRelay

  // ----- frames from the front ---------------------------------------------

  lemma {:induction false} CollectFirst<T>(f: Frame, fs: seq<Frame>, of: Frame -> seq<T>)
    ensures Collect([f] + fs, of) == of(f) + Collect(fs, of)
  {
    assert Collect([], of) == [];
    hide Collect;
    if fs == [] {
      CollectLast([], f, of);
      assert [f] + fs == [] + [f];
    } else {
      var init, last := fs[..|fs| - 1], fs[|fs| - 1];
      CollectFirst(f, init, of);
      CollectLast(init, last, of);
      CollectLast([f] + init, last, of);
      assert init + [last] == fs;
      Regroup([f], init, [last]);
      Regroup(of(f), Collect(init, of), of(last));
    }
  }

  // ----- replaying what the server sends -----------------------------------

  /** The relay of frames followed by what the relay makes of the rest. */
  function Joined(fs: seq<Frame>, result: ExitResult, rest: Client.Relayed): Client.Relayed {
    Client.Relayed(Stdout(fs) + rest.stdout, Stderr(fs) + rest.stderr,
                   seq(|Notices(fs)|, _ => result) + rest.exits, rest.result)
  }

  function ExitAfter(fs: seq<Frame>, result: ExitResult, exit: Option<ExitResult>): Option<ExitResult> {
    if Notices(fs) == [] then exit else Some(result)
  }

  /** One frame of output: its payload goes to its stream, an exit notice becomes the result. */
  lemma ReplayFrame(f: Frame, status: ExitStatus, tail: Bytes, ending: Ending, exit: Option<ExitResult>)
    requires Outputs(f, status)
    ensures Sendable(f)
    ensures var result := ExitResultOf(status);
            var rest := Client.Replay(tail, ending, if f.Notice? then Some(result) else exit);
            Client.Replay(EncodeFrame(f) + tail, ending, exit) ==
            match f
            case Data(p) => Client.OnStdout(p, rest)
            case ExtendedData(_, p) => Client.OnStderr(p, rest)
            case _ => Client.OnExit(result, rest)
  {
    hide EncodeFrame, EventAt, DecodeNotice, ExitFrame, ExitResultOf, Client.Replay, IsField;
    assert Readable(f);
    FrameReadBack(f, tail);
    Client.ReplayUnfolds(EncodeFrame(f) + tail, ending, exit);
    var n, s := |Payload(f)|, Payload(f) + tail;
    assert s[..n] == Payload(f) && s[n..] == tail;
    if f.Notice? {
      ExitRoundTrip(status, tail);
    }
  }

  /** Any run of output frames, in whatever order the server interleaved them. */
  lemma {:induction false} ReplayFrames(fs: seq<Frame>, status: ExitStatus, tail: Bytes, ending: Ending,
                                        exit: Option<ExitResult>)
    requires AllOutputs(fs, status)
    ensures AllSendable(fs)
    ensures var result := ExitResultOf(status);
            Client.Replay(EncodeFrames(fs) + tail, ending, exit)
            == Joined(fs, result, Client.Replay(tail, ending, ExitAfter(fs, result, exit)))
  {
    OutputsAreReadable(fs, status);
    if fs == [] {
      assert EncodeFrames(fs) + tail == tail;
      JoinedNone(ExitResultOf(status), Client.Replay(tail, ending, exit));
    } else {
      var f, fs' := fs[0], fs[1..];
      assert fs == [f] + fs' && Outputs(f, status);
      FramesSplit(f, fs', tail);
      hide EncodeFrame, EncodeFrames, ExitFrame, ExitResultOf, Client.Replay, Outputs;
      var result := ExitResultOf(status);
      var exit' := if f.Notice? then Some(result) else exit;
      ReplayFrame(f, status, EncodeFrames(fs') + tail, ending, exit);
      ReplayFrames(fs', status, tail, ending, exit');
      JoinedOne(f, fs', result, Client.Replay(tail, ending, ExitAfter(fs', result, exit')), exit);
    }
  }

  lemma FramesSplit(f: Frame, fs: seq<Frame>, tail: Bytes)
    requires AllSendable([f] + fs)
    ensures Sendable(f) && AllSendable(fs)
    ensures EncodeFrames([f] + fs) + tail == EncodeFrame(f) + (EncodeFrames(fs) + tail)
  {
    assert f in [f] + fs;
    assert forall g :: g in fs ==> g in [f] + fs;
    hide EncodeFrame, Sendable;
    assert ([f] + fs)[0] == f && ([f] + fs)[1..] == fs;
    assert EncodeFrames([f] + fs) == EncodeFrame(f) + EncodeFrames(fs);
    hide EncodeFrames;
    Regroup(EncodeFrame(f), EncodeFrames(fs), tail);
  }

  lemma JoinedNone(result: ExitResult, rest: Client.Relayed)
    ensures Joined([], result, rest) == rest
  {}

  lemma JoinedOne(f: Frame, fs: seq<Frame>, result: ExitResult, rest: Client.Relayed, exit: Option<ExitResult>)
    requires f.Data? || f.ExtendedData? || f.Notice?
    ensures Joined([f] + fs, result, rest) ==
            match f
            case Data(p) => Client.OnStdout(p, Joined(fs, result, rest))
            case ExtendedData(_, p) => Client.OnStderr(p, Joined(fs, result, rest))
            case _ => Client.OnExit(result, Joined(fs, result, rest))
    ensures ExitAfter([f] + fs, result, exit) == ExitAfter(fs, result, if f.Notice? then Some(result) else exit)
  {
    CollectFirst(f, fs, OutOf);
    CollectFirst(f, fs, ErrOf);
    CollectFirst(f, fs, NoticesOf);
    hide Collect;
    Regroup(OutOf(f), Stdout(fs), rest.stdout);
    Regroup(ErrOf(f), Stderr(fs), rest.stderr);
    OneMore(|Notices(fs)|, result, rest.exits);
  }

  lemma OneMore(n: nat, result: ExitResult, exits: seq<ExitResult>)
    ensures seq(n + 1, _ => result) + exits == [result] + (seq(n, _ => result) + exits)
  {}

  // ----- the main theorems -------------------------------------------------

  lemma ReplayTail(tail: Bytes, ending: Ending, exit: Option<ExitResult>)
    ensures Client.Replay(EncodeFrames(TAIL) + tail, ending, exit) == Client.Silent(Ok(exit))
  {
    hide EncodeFrame, EventAt, Client.Replay;
    FramesSplit(Eof, [Close], tail);
    FramesSplit(Close, [], tail);
    assert TAIL == [Eof] + [Close] && [Close] == [Close] + [];
    var close := EncodeFrame(Close) + (EncodeFrames([]) + tail);
    FrameReadBack(Eof, close);
    FrameReadBack(Close, EncodeFrames([]) + tail);
    Client.ReplayUnfolds(EncodeFrame(Eof) + close, ending, exit);
    Client.ReplayUnfolds(close, ending, exit);
    assert Payload(Eof) + close == close;
  }

  /**
   The client ends up with exactly what the process wrote and how it ended, for every
   interleaving of the server's loop, every end of the stream, and whatever follows.
   */
  lemma SessionEndToEnd(written: Bytes, fs: seq<Frame>, status: ExitStatus, out: Bytes, err: Bytes,
                        after: Bytes, ending: Ending)
    requires Complete(written, [], fs, status, out, err)
    ensures var result := ExitResultOf(status);
            Client.Replay(written + after, ending, None) == Client.Relayed(out, err, [result], Ok(Some(result)))
  {
    hide EncodeFrames, Client.Replay, ExitResultOf, ExitFrame;
    var result := ExitResultOf(status);
    OutputsAreReadable(fs, status);
    EncodeFramesAppend(fs, TAIL);
    var tail := EncodeFrames(TAIL) + after;
    assert written + after == EncodeFrames(fs) + tail;
    ReplayFrames(fs, status, tail, ending, None);
    ReplayTail(after, ending, Some(result));
    assert seq(1, _ => result) == [result];
  }

  /**
   A stream that is cut anywhere, by the server failing or by the network: the client has
   written prefixes of the process's output, and if it reports an exit, it is the right one.
   */
  lemma SessionCut(written: Bytes, k: nat, fs: seq<Frame>, status: ExitStatus, out: Bytes, err: Bytes, ending: Ending)
    requires Cut(written, [], fs, status, out, err) && k <= |written|
    ensures var r := Client.Replay(written[..k], ending, None);
            && r.stdout <= out && r.stderr <= err
            && (r.result.Ok? ==> r.result.value.None? || r.result.value == Some(ExitResultOf(status)))
  {
    hide EncodeFrames, Client.Replay, ExitResultOf, ExitFrame;
    var result := ExitResultOf(status);
    OutputsAreReadable(fs, status);
    EncodeFramesAppend(fs, TAIL);
    var s := EncodeFrames(fs + TAIL);
    assert s == EncodeFrames(fs) + (EncodeFrames(TAIL) + []);
    assert written[..k] == s[..k];
    var whole, r := Client.Replay(s, Finished, None), Client.Replay(s[..k], ending, None);
    ReplayFrames(fs, status, EncodeFrames(TAIL) + [], Finished, None);
    ReplayTail([], Finished, ExitAfter(fs, result, None));
    assert whole.stdout == Stdout(fs) && whole.stderr == Stderr(fs);
    assert forall e :: e in whole.exits ==> e == result;
    Client.ReplayCut(s, k, ending, Finished, None, None);
    Client.ResultIsLastExit(s[..k], ending, None);
    assert forall i :: 0 <= i < |r.exits| ==> r.exits[i] == whole.exits[i];
  }

  // ----- where exactly it is cut -------------------------------------------

  /** `s` is the first `i` messages and a part of the next one. */
  ghost predicate Arrived(s: Bytes, all: seq<Frame>, i: nat, part: Bytes)
    requires AllSendable(all)
  {
    && i <= |all| && AllSendable(all[..i]) && s == EncodeFrames(all[..i]) + part
    && if i == |all| then part == [] else Sendable(all[i]) && part < EncodeFrame(all[i])
  }

  /** Every part of a stream of messages ends somewhere. */
  lemma {:induction false} PartArrives(s: Bytes, all: seq<Frame>) returns (i: nat, part: Bytes)
    requires AllSendable(all) && s <= EncodeFrames(all)
    ensures Arrived(s, all, i, part)
  {
    hide EncodeFrame, Sendable;
    if all == [] {
      i, part := 0, [];
    } else {
      var f, rest := all[0], all[1..];
      assert f in all && forall g :: g in rest ==> g in all;
      var e := EncodeFrame(f);
      if |s| < |e| {
        i, part := 0, s;
        assert s == EncodeFrames(all)[..|s|] == e[..|s|];
        assert all[..0] == [];
      } else {
        assert s[..|e|] == e && s[|e|..] <= EncodeFrames(rest);
        i, part := PartArrives(s[|e|..], rest);
        i := i + 1;
        assert all[..i] == [f] + rest[..i - 1];
        FramesSplit(f, rest[..i - 1], part);
        assert s == e + s[|e|..];
      }
    }
  }

  /** What the client returns when a part of `f` is the last that arrives, after this exit result. */
  predicate CutResult(f: Frame, part: Bytes, ending: Ending, exit: Option<ExitResult>,
                      r: Result<Option<ExitResult>, Client.RunError>)
    requires Sendable(f)
  {
    if |part| < |Header(f)| then
      if exit.Some? || (|part| < 2 && ending.Finished?) then r == Ok(exit) else r.Err? && r.error.ReadEvent?
    else match f
      case Data(_) => r == if ending.Fails? then Err(Client.WriteStdout) else Ok(exit)
      case ExtendedData(_, _) => r == if ending.Fails? then Err(Client.WriteStderr) else Ok(exit)
      case _ => r.Err? && (r.error.BadExitStatus? || r.error.BadExitSignal?)
  }

  /** What it does: the part of the payload that arrived is written, and it returns as above. */
  lemma ReplayPart(f: Frame, status: ExitStatus, part: Bytes, ending: Ending, exit: Option<ExitResult>)
    requires (f == Eof || f == Close || Outputs(f, status)) && Readable(f) && part < EncodeFrame(f)
    ensures var r := Client.Replay(part, ending, exit); var q := PayloadIn(f, part);
            && CutResult(f, part, ending, exit, r.result)
            && r.stdout == (if f.Data? then q else []) && r.stderr == (if f.ExtendedData? then q else [])
  {
    var h := Header(f);
    if |part| < |h| {
      ReplayHeaderPart(f, part, ending, exit);
    } else {
      ReplayPayloadPart(f, status, part[|h|..], ending, exit);
      assert part == h + part[|h|..];
    }
  }

  /** What there is of the payload. */
  function PayloadIn(f: Frame, part: Bytes): Bytes
    requires Sendable(f)
  {
    if |part| < |Header(f)| then [] else part[|Header(f)|..]
  }

  lemma ReplayHeaderPart(f: Frame, part: Bytes, ending: Ending, exit: Option<ExitResult>)
    requires Readable(f) && part < EncodeFrame(f) && |part| < |Header(f)|
    ensures var r := Client.Replay(part, ending, exit);
            CutResult(f, part, ending, exit, r.result) && r.stdout == [] && r.stderr == []
  {
    hide EventAt, Header, IsField;
    assert part == Header(f)[..|part|];
    HeaderCut(f, |part|);
    Client.ReplayUnfolds(part, ending, exit);
    hide Client.Replay;
  }

  lemma ReplayPayloadPart(f: Frame, status: ExitStatus, q: Bytes, ending: Ending, exit: Option<ExitResult>)
    requires (f == Eof || f == Close || Outputs(f, status)) && Readable(f) && q < Payload(f)
    ensures var r := Client.Replay(Header(f) + q, ending, exit);
            && CutResult(f, Header(f) + q, ending, exit, r.result)
            && r.stdout == (if f.Data? then q else []) && r.stderr == (if f.ExtendedData? then q else [])
  {
    hide EventAt, Header, IsField, Client.Replay, ExitFrame, DecodeNotice;
    HeaderReadBack(f, q);
    Client.ReplayUnfolds(Header(f) + q, ending, exit);
    Client.NothingLeft(ending, exit);
    assert Client.Replay(Header(f) + q, ending, exit) == Client.ReplayEvent(EventOf(f), q, ending, exit);
    if f.Notice? {
      ExitPayloadCut(status, |q|);
      assert q == f.payload[..|q|];
    } else {
      assert Within(q, |Payload(f)|) == q && Behind(q, |Payload(f)|) == [];
    }
  }

  /** Less than the payload of an exit notice does not decode. */
  lemma ExitPayloadCut(status: ExitStatus, k: nat)
    requires k < |ExitFrame(status).payload|
    ensures var f := ExitFrame(status); var d := DecodeNotice(f.requestType, f.payload[..k]);
            d.Some? && d.value.Err?
  {
    var f := ExitFrame(status);
    ExitRoundTrip(status, []);
    assert f.payload + [] == f.payload;
    NoticeCut(f.requestType, f.payload, k);
    hide DecodeNotice, ExitFrame;
  }

  /**
   What the client writes and returns, for every place where the stream is cut and however it
   ends there: the output that arrived, and the exit result if the whole notice arrived, unless
   the stream fails inside a payload; without one, nothing after a clean end in front of a
   message and an error otherwise.
   */
  lemma CutOutcome(s: Bytes, fs: seq<Frame>, status: ExitStatus, ending: Ending, i: nat, part: Bytes)
    requires AllOutputs(fs, status) && AllSendable(fs + TAIL) && Arrived(s, fs + TAIL, i, part)
    ensures var all := fs + TAIL; var got, r := all[..i], Client.Replay(s, ending, None);
            var exit := if Notices(got) == [] then None else Some(ExitResultOf(status));
            if i == |all| then
              r.result == Ok(exit) && r.stdout == Stdout(fs) && r.stderr == Stderr(fs)
            else
              var f := all[i]; var q := PayloadIn(f, part);
              && CutResult(f, part, ending, exit, r.result)
              && r.stdout == Stdout(got) + (if f.Data? then q else [])
              && r.stderr == Stderr(got) + (if f.ExtendedData? then q else [])
  {
    hide EncodeFrame, EncodeFrames, Client.Replay, ExitFrame, ExitResultOf, Collect, CutResult, PayloadIn, Sendable;
    var all, result := fs + TAIL, ExitResultOf(status);
    if i <= |fs| {
      assert all[..i] == fs[..i];
      ReplayFrames(fs[..i], status, part, ending, None);
      assert i < |all| && (i < |fs| ==> all[i] == fs[i] && Outputs(fs[i], status));
      ReplayPart(all[i], status, part, ending, ExitAfter(fs[..i], result, None));
    } else {
      assert all[..|fs| + 1] == fs + [Eof] && all[|fs| + 1] == Close && all[..|all|] == all;
      FrameAdded(fs, Eof);
      if i < |all| {
        var exit := ExitAfter(fs, result, None);
        EofSkipped(fs, part, ending, exit);
        ReplayFrames(fs, status, EncodeFrame(Eof) + part, ending, None);
        ReplayPart(Close, status, part, ending, exit);
      } else {
        FrameAdded(fs + [Eof], Close);
        assert fs + TAIL == fs + [Eof] + [Close];
        EncodeFramesAppend(fs, TAIL);
        assert s == EncodeFrames(fs) + (EncodeFrames(TAIL) + []);
        ReplayFrames(fs, status, EncodeFrames(TAIL) + [], ending, None);
        ReplayTail([], ending, ExitAfter(fs, result, None));
      }
    }
  }

  lemma EofSkipped(fs: seq<Frame>, part: Bytes, ending: Ending, exit: Option<ExitResult>)
    requires AllSendable(fs) && AllSendable(fs + [Eof])
    ensures EncodeFrames(fs + [Eof]) + part == EncodeFrames(fs) + (EncodeFrame(Eof) + part)
    ensures Client.Replay(EncodeFrame(Eof) + part, ending, exit) == Client.Replay(part, ending, exit)
  {
    hide EncodeFrame, EventAt, Client.Replay, Sendable;
    EncodeFramesAppend(fs, [Eof]);
    FramesSplit(Eof, [], part);
    assert [Eof] + [] == [Eof] && EncodeFrames([]) + part == part;
    hide EncodeFrames;
    Regroup(EncodeFrames(fs), EncodeFrames([Eof]), part);
    FrameReadBack(Eof, part);
    assert Payload(Eof) + part == part;
    Client.ReplayUnfolds(EncodeFrame(Eof) + part, ending, exit);
  }

  /** A complete stream is one that can be cut. */
  lemma CompleteCanBeCut(written: Bytes, start: Bytes, fs: seq<Frame>, status: ExitStatus, out: Bytes, err: Bytes)
    requires Complete(written, start, fs, status, out, err)
    ensures Cut(written, start, fs, status, out, err)
  {
    hide EncodeFrames, ExitFrame, Stdout, Stderr, Notices;
  }

  // ----- both programs -----------------------------------------------------

  /** What the client returns for what arrived of the messages. */
  ghost predicate RightResult(arrived: Bytes, fs: seq<Frame>, status: ExitStatus, ending: Ending,
                              r: Result<Option<ExitResult>, Client.RunError>) {
    && AllOutputs(fs, status) && AllSendable(fs + TAIL)
    && exists i, part :: Arrived(arrived, fs + TAIL, i, part) && RightAt(fs, status, i, part, ending, r)
  }

  ghost predicate RightAt(fs: seq<Frame>, status: ExitStatus, i: nat, part: Bytes, ending: Ending,
                          r: Result<Option<ExitResult>, Client.RunError>)
    requires AllSendable(fs + TAIL) && i <= |fs + TAIL|
  {
    var all := fs + TAIL;
    var exit := if Notices(all[..i]) == [] then None else Some(ExitResultOf(status));
    if i == |all| then r == Ok(exit) else CutResult(all[i], part, ending, exit, r)
  }

  lemma ResultIsRight(s: Bytes, fs: seq<Frame>, status: ExitStatus, ending: Ending)
    requires AllOutputs(fs, status) && AllSendable(fs + TAIL) && s <= EncodeFrames(fs + TAIL)
    ensures RightResult(s, fs, status, ending, Client.Replay(s, ending, None).result)
  {
    hide EncodeFrames, Client.Replay, ExitResultOf, CutResult, Outputs, Collect, Sendable;
    var i, part := PartArrives(s, fs + TAIL);
    CutOutcome(s, fs, status, ending, i, part);
    assert RightAt(fs, status, i, part, ending, Client.Replay(s, ending, None).result);
  }

  /**
   A piped session over a stream that loses nothing, or everything behind its first bytes.
   Unless a local stream refuses, the client's result is the right one for what arrived.
   */
  method PipedSession(stdout: ByteSource, stderr: ByteSource, process: SessionProcess,
                      cut: Option<nat>, ending: Ending, localOut: ByteSink, localErr: ByteSink)
      returns (server: Result<(), ProcessError>, client: Result<Option<ExitResult>, Client.RunError>,
               ghost refused: bool, ghost fs: seq<Frame>, ghost arrived: Bytes)
    requires stdout != stderr && localOut != localErr
    requires localOut.written == localErr.written == []
    modifies stdout, stderr, localOut, localErr
    ensures localOut.written <= old(stdout.rest) && localErr.written <= old(stderr.rest)
    ensures client.Ok? ==> client.value.None? || client.value == Some(ExitResultOf(process.status))
    ensures !refused ==> RightResult(arrived, fs, process.status, ending, client)
    ensures server.Ok? && cut.None? ==> Complete(arrived, [], fs, process.status, old(stdout.rest), old(stderr.rest))
    ensures server.Ok? && cut.None? && !refused ==>
              && localOut.written == old(stdout.rest) && localErr.written == old(stderr.rest)
              && client == Ok(Some(ExitResultOf(process.status)))
  {
    hide EncodeFrames, Client.Replay, ExitResultOf, ExitFrame, Stdout, Stderr, Notices, RightResult, Sendable;
    ghost var out, err := stdout.rest, stderr.rest;
    var sink := new ByteSink();
    var writer := new SshChannelWriter(sink);
    var stop := new StopInput();
    server, fs := RunPiped(stdout, stderr, writer, process, stop);
    if server.Ok? {
      CompleteCanBeCut(sink.written, [], fs, process.status, out, err);
      SessionEndToEnd(sink.written, fs, process.status, out, err, [], ending);
      assert sink.written + [] == sink.written[..|sink.written|];
    }
    var count := if cut.Some? && cut.value < |sink.written| then cut.value else |sink.written|;
    arrived := sink.written[..count];
    SessionCut(sink.written, count, fs, process.status, out, err, ending);
    assert [] + EncodeFrames(fs + TAIL) == EncodeFrames(fs + TAIL);
    ResultIsRight(arrived, fs, process.status, ending);
    var source := new ByteSource(sink.written[..count], ending);
    var reader := new SshChannelReader(source);
    var done := new Client.DoneSignal();
    client, refused := Client.RelayOutput(reader, localOut, localErr, done);
  }
}
