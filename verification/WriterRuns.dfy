/**
 The calls that write to the control stream as runs of the transition system: an agent left
 alone reaches what `WriterCall` says, whatever the stream and the session do.
 */
module WriterRuns {
  import opened Prelude
  import opened Tickets
  import opened ControlStream
  import opened Conversation

  // ----- writing a message -------------------------------------------------

  function WriteRun(id: nat, n: nat): seq<Action> {
    if n == 0 then [] else WriteRun(id, n - 1) + [WriteField(id)]
  }

  /** The state after the holder of a guard has written the first `n` fields of its message. */
  function AfterFields(s: State, id: nat, n: nat): State
    requires id in s.agents && s.agents[id].Writer? && n <= |Message(s.agents[id].job)|
  {
    var part := Message(s.agents[id].job)[..n];
    s.(agents := s.agents[id := s.agents[id].(pc := Held(n))],
       h := s.h.(wire := s.h.wire + part, cur := part))
  }

  predicate Starts(s: State, id: nat) {
    id in s.agents && s.agents[id].Writer? && s.agents[id].pc == Held(0) && s.h.cur == []
  }

  lemma NoFieldYet(s: State, id: nat)
    requires Starts(s, id)
    ensures AfterFields(s, id, 0) == s
  {
    assert s.h.wire + [] == s.h.wire && s.agents[id := s.agents[id]] == s.agents;
  }

  lemma FieldWritten(s: State, id: nat, n: nat)
    requires Starts(s, id) && n < |Message(s.agents[id].job)|
    ensures Step(AfterFields(s, id, n), WriteField(id)) == AfterFields(s, id, n + 1)
  {
    var m, t := Message(s.agents[id].job), AfterFields(s, id, n);
    assert Step(t, WriteField(id)) == Put(Emit(t, m[n]), id, s.agents[id].(pc := Held(n + 1)));
    hide Step;
    assert m[..n] + [m[n]] == m[..n + 1];
    Regroup(s.h.wire, m[..n], [m[n]]);
    assert t.agents[id := s.agents[id].(pc := Held(n + 1))] == s.agents[id := s.agents[id].(pc := Held(n + 1))];
  }

  /** Left alone, the holder of a guard does what WriteMessage does. */
  lemma {:induction false} MessageAlone(s: State, id: nat, n: nat)
    requires Starts(s, id) && n <= |Message(s.agents[id].job)|
    ensures Exec(s, WriteRun(id, n)) == AfterFields(s, id, n)
  {
    hide Step, AfterFields, Message;
    if n == 0 {
      NoFieldYet(s, id);
    } else {
      MessageAlone(s, id, n - 1);
      ExecSnoc(s, WriteRun(id, n - 1), WriteField(id));
      FieldWritten(s, id, n - 1);
    }
  }

  /** The message is sent and its ticket retired; the agent is gone or waits for the answer. */
  function AfterMessage(s: State, id: nat): State
    requires id in s.agents && s.agents[id].Writer?
  {
    var g, m := s.agents[id], Message(s.agents[id].job);
    s.(sh := s.sh.ReleaseWriter(),
       agents := if g.job.Request? then s.agents[id := Reader(g.job.readTicket, ReaderJob.Response(g.w), RAcquire)]
                 else s.agents - {id},
       h := s.h.(wire := s.h.wire + m, chunks := s.h.chunks + [m]))
  }

  lemma MessageFinished(s: State, id: nat)
    requires Starts(s, id)
    ensures Exec(s, WriteRun(id, |Message(s.agents[id].job)|) + [Finish(id)]) == AfterMessage(s, id)
  {
    hide Message, Step, AfterFields, AfterMessage;
    MessageAlone(s, id, |Message(s.agents[id].job)|);
    ExecSnoc(s, WriteRun(id, |Message(s.agents[id].job)|), Finish(id));
    LastField(s, id);
  }

  lemma LastField(s: State, id: nat)
    requires Starts(s, id)
    ensures Step(AfterFields(s, id, |Message(s.agents[id].job)|), Finish(id)) == AfterMessage(s, id)
  {
    hide Message;
    var m := Message(s.agents[id].job);
    var t := AfterFields(s, id, |m|);
    assert m[..|m|] == m && t.agents - {id} == s.agents - {id} && s.h.broken + {} == s.h.broken;
  }

  /** The loop of acquire_writer with nothing left to drain, up to the guard or the wait. */
  function AcquireRun(id: nat): seq<Action> {
    [DrainLoad(id), DrainTake(id), LoadServing(id), LoadPoison(id), LoadServing(id)]
  }

  lemma AcquireAlone(s: State, id: nat)
    requires AtLoop(s, id) && s.agents[id].w == s.sh.wServing && s.sh.wServing !in s.sh.autoFailures
    ensures Exec(s, AcquireRun(id)) == Put(s, id, s.agents[id].(pc := Held(0)))
  {
    FindsTurn(s, id);
    TakesTurn(Put(s, id, s.agents[id].(pc := Turn)), id);
    hide Step;
    ExecFive(s, DrainLoad(id), DrainTake(id), LoadServing(id), LoadPoison(id), LoadServing(id));
  }

  /** An agent at the top of its loop, with nothing of the served message written. */
  predicate AtTop(s: State, id: nat) {
    id in s.agents && s.agents[id].Writer? && s.agents[id].pc.Loop? && s.h.cur == []
  }

  lemma FindsTurn(s: State, id: nat)
    requires AtTop(s, id) && s.sh.wServing !in s.sh.autoFailures
    ensures Step(Step(s, DrainLoad(id)), DrainTake(id)) == Put(s, id, s.agents[id].(pc := Turn))
  {
    assert Step(s, DrainLoad(id)) == Put(s, id, s.agents[id].(pc := Loaded(s.sh.wServing)));
  }

  lemma TakesTurn(s: State, id: nat)
    requires id in s.agents && s.agents[id].Writer? && s.agents[id].pc.Turn? && s.agents[id].w == s.sh.wServing
    requires !s.sh.poisoned
    ensures Step(Step(Step(s, LoadServing(id)), LoadPoison(id)), LoadServing(id))
            == Put(s, id, s.agents[id].(pc := Held(0)))
  {
    var g := s.agents[id];
    var t := Step(s, LoadServing(id));
    assert t == Put(s, id, g.(pc := Acquire));
    assert Step(t, LoadPoison(id)) == Put(s, id, g.(pc := Clear));
  }

  lemma ExecFive(s: State, a: Action, b: Action, c: Action, d: Action, e: Action)
    ensures Exec(s, [a, b, c, d, e]) == Step(Step(Step(Step(Step(s, a), b), c), d), e)
  {
    hide Step;
    ExecSnoc(s, [], a);
    ExecSnoc(s, [a], b);
    ExecSnoc(s, [a, b], c);
    ExecSnoc(s, [a, b, c], d);
    ExecSnoc(s, [a, b, c, d], e);
    assert [] + [a] == [a] && [a] + [b] == [a, b] && [a, b] + [c] == [a, b, c];
    assert [a, b, c] + [d] == [a, b, c, d] && [a, b, c, d] + [e] == [a, b, c, d, e];
  }

  // ----- the calls that do not get through ---------------------------------

  lemma ExecThree(s: State, a: Action, b: Action, c: Action)
    ensures Exec(s, [a, b, c]) == Step(Step(Step(s, a), b), c)
  {
    hide Step;
    ExecSnoc(s, [], a);
    ExecSnoc(s, [a], b);
    ExecSnoc(s, [a, b], c);
    assert [] + [a] == [a] && [a] + [b] == [a, b] && [a, b] + [c] == [a, b, c];
  }

  lemma ExecFour(s: State, a: Action, b: Action, c: Action, d: Action)
    ensures Exec(s, [a, b, c, d]) == Step(Step(Step(Step(s, a), b), c), d)
  {
    hide Step;
    ExecSnoc(s, [], a);
    ExecSnoc(s, [a], b);
    ExecSnoc(s, [a, b], c);
    ExecSnoc(s, [a, b, c], d);
    assert [] + [a] == [a] && [a] + [b] == [a, b] && [a, b] + [c] == [a, b, c];
    assert [a, b, c] + [d] == [a, b, c, d];
  }

  /** In a poisoned session: the served ticket is lost if it was queued. */
  function GiveUpRun(s: State, id: nat): seq<Action> {
    if s.sh.wServing in s.sh.autoFailures then [DrainLoad(id), DrainTake(id), LoadPoison(id)]
    else [DrainLoad(id), DrainTake(id), LoadServing(id), LoadPoison(id)]
  }

  lemma GivesUp(s: State, id: nat)
    requires AtTop(s, id) && s.sh.poisoned
    ensures Exec(s, GiveUpRun(s, id)) == Remove(s.(sh := s.sh.Unqueue(s.sh.wServing)), id)
  {
    if s.sh.wServing in s.sh.autoFailures {
      LosesOne(s, id);
      hide Step;
      ExecThree(s, DrainLoad(id), DrainTake(id), LoadPoison(id));
    } else {
      assert s.sh.Unqueue(s.sh.wServing) == s.sh;
      FindsPoison(s, id);
      hide Step;
      ExecFour(s, DrainLoad(id), DrainTake(id), LoadServing(id), LoadPoison(id));
    }
  }

  lemma LosesOne(s: State, id: nat)
    requires AtTop(s, id) && s.sh.poisoned && s.sh.wServing in s.sh.autoFailures
    ensures Step(Step(Step(s, DrainLoad(id)), DrainTake(id)), LoadPoison(id))
            == Remove(s.(sh := s.sh.Unqueue(s.sh.wServing)), id)
  {
    var c, g := s.sh.wServing, s.agents[id];
    var s1 := Put(s, id, g.(pc := Loaded(c)));
    assert s1 == Step(s, DrainLoad(id));
    var s2 := Put(s.(sh := s.sh.Unqueue(c)), id, g.(pc := Took(c)));
    assert s2 == Step(s1, DrainTake(id));
    assert Remove(s2, id).agents == s.agents - {id};
  }

  lemma FindsPoison(s: State, id: nat)
    requires AtTop(s, id) && s.sh.poisoned && s.sh.wServing !in s.sh.autoFailures
    ensures Step(Step(Step(Step(s, DrainLoad(id)), DrainTake(id)), LoadServing(id)), LoadPoison(id)) == Remove(s, id)
  {
    FindsTurn(s, id);
    var t := Put(s, id, s.agents[id].(pc := Turn));
    assert t.agents - {id} == s.agents - {id};
    TurnsAway(t, id);
    hide Step;
  }

  lemma TurnsAway(s: State, id: nat)
    requires id in s.agents && s.agents[id].Writer? && s.agents[id].pc.Turn? && s.sh.poisoned
    ensures Step(Step(s, LoadServing(id)), LoadPoison(id)) == Remove(s, id)
  {
    var g := s.agents[id];
    var t := Put(s, id, g.(pc := if s.sh.wServing == g.w then Acquire else Enabled));
    assert t == Step(s, LoadServing(id));
    assert t.agents - {id} == s.agents - {id};
  }

  lemma Waits(s: State, id: nat)
    requires AtLoop(s, id) && s.agents[id].w != s.sh.wServing && s.sh.wServing !in s.sh.autoFailures
    ensures Exec(s, AcquireRun(id)) == Put(s, id, s.agents[id].(pc := Parked))
  {
    FindsTurn(s, id);
    Parks(Put(s, id, s.agents[id].(pc := Turn)), id);
    hide Step;
    ExecFive(s, DrainLoad(id), DrainTake(id), LoadServing(id), LoadPoison(id), LoadServing(id));
  }

  lemma Parks(s: State, id: nat)
    requires id in s.agents && s.agents[id].Writer? && s.agents[id].pc.Turn? && s.agents[id].w != s.sh.wServing
    requires !s.sh.poisoned
    ensures Step(Step(Step(s, LoadServing(id)), LoadPoison(id)), LoadServing(id))
            == Put(s, id, s.agents[id].(pc := Parked))
  {
    var g := s.agents[id];
    assert Step(s, LoadServing(id)) == Put(s, id, g.(pc := Enabled));
    assert Step(Put(s, id, g.(pc := Enabled)), LoadPoison(id)) == Put(s, id, g.(pc := Recheck));
  }

  /** A drain whose encode call fails, or, with the failure written, whose flush does. */
  function DrainBreakRun(id: nat, written: bool, torn: bool): seq<Action> {
    [DrainLoad(id), DrainTake(id), LoadPoison(id), LoadServing(id)]
    + (if written then [WriteField(id)] else []) + [WriteFails(id, torn), StorePoison(id)]
  }

  /** The shared state and the stream, once the agent is gone. */
  predicate GoneWith(s: State, t: State, id: nat, sh: Shared, wire: seq<Field>) {
    t.sh == sh && t.h.wire == wire && t.agents == s.agents - {id}
  }

  lemma DrainBreaks(s: State, id: nat, written: bool, torn: bool)
    requires AtLoop(s, id) && s.sh.wServing in s.sh.autoFailures
    ensures GoneWith(s, Exec(s, DrainBreakRun(id, written, torn)), id,
                     s.sh.Unqueue(s.sh.wServing).ReleaseWriter().Poison(),
                     s.h.wire + (if written then FAILURE else if torn then [Torn] else []))
  {
    hide Step, Exec;
    var first := [DrainLoad(id), DrainTake(id), LoadPoison(id), LoadServing(id)];
    var c, g := s.sh.wServing, s.agents[id];
    TakesOne(s, id);
    ExecFour(s, DrainLoad(id), DrainTake(id), LoadPoison(id), LoadServing(id));
    var held := Put(s.(sh := s.sh.Unqueue(c)), id, g.(pc := DrainHeld(c, 0)));
    assert held.agents - {id} == s.agents - {id};
    if written {
      WrittenBreaks(held, id, torn);
      assert DrainBreakRun(id, written, torn) == first + [WriteField(id), WriteFails(id, torn), StorePoison(id)];
      ExecAppend(s, first, [WriteField(id), WriteFails(id, torn), StorePoison(id)]);
    } else {
      DrainBreaksAt(held, id, torn);
      ExecTwo(held, WriteFails(id, torn), StorePoison(id));
      assert DrainBreakRun(id, written, torn) == first + [WriteFails(id, torn), StorePoison(id)];
      ExecAppend(s, first, [WriteFails(id, torn), StorePoison(id)]);
    }
  }

  lemma WrittenBreaks(s: State, id: nat, torn: bool)
    requires id in s.agents && s.agents[id].Writer? && s.agents[id].pc == DrainHeld(s.sh.wServing, 0)
    ensures GoneWith(s, Exec(s, [WriteField(id), WriteFails(id, torn), StorePoison(id)]), id,
                     s.sh.ReleaseWriter().Poison(), s.h.wire + FAILURE)
  {
    var t := Put(Emit(s, FAILURE[0]), id, s.agents[id].(pc := DrainHeld(s.sh.wServing, 1)));
    assert Step(s, WriteField(id)) == t;
    hide Step;
    DrainBreaksAt(t, id, torn);
    ExecThree(s, WriteField(id), WriteFails(id, torn), StorePoison(id));
    assert t.agents - {id} == s.agents - {id} && [FAILURE[0]] == FAILURE;
    assert s.h.wire + FAILURE + [] == s.h.wire + FAILURE;
  }

  lemma ExecTwo(s: State, a: Action, b: Action)
    ensures Exec(s, [a, b]) == Step(Step(s, a), b)
  {
    hide Step;
    ExecSnoc(s, [], a);
    ExecSnoc(s, [a], b);
    assert [] + [a] == [a] && [a] + [b] == [a, b];
  }

  lemma DrainBreaksAt(s: State, id: nat, torn: bool)
    requires id in s.agents && s.agents[id].Writer? && s.agents[id].pc.DrainHeld?
    ensures GoneWith(s, Step(Step(s, WriteFails(id, torn)), StorePoison(id)), id, s.sh.ReleaseWriter().Poison(),
                     s.h.wire + (if torn && s.agents[id].pc.n < |FAILURE| then [Torn] else []))
  {
    var t := Step(s, WriteFails(id, torn));
    assert t.agents == s.agents[id := s.agents[id].(pc := DrainBroken)];
    assert t.agents - {id} == s.agents - {id};
  }

  /** A message that fails behind its first `n` fields. */
  function MessageBreakRun(id: nat, n: nat, torn: bool): seq<Action> {
    WriteRun(id, n) + [WriteFails(id, torn), StorePoison(id), DropGuard(id)]
  }

  lemma MessageBreaks(s: State, id: nat, n: nat, torn: bool)
    requires Starts(s, id) && n <= |Message(s.agents[id].job)|
    ensures var m := Message(s.agents[id].job);
            GoneWith(s, Exec(s, MessageBreakRun(id, n, torn)), id, s.sh.Poison().ReleaseWriter(),
                     s.h.wire + (m[..n] + if torn && n < |m| then [Torn] else []))
  {
    MessageAlone(s, id, n);
    var t := AfterFields(s, id, n);
    MessageBreaksAt(t, id, n, torn);
    hide Step, Message;
    ExecAppend(s, WriteRun(id, n), [WriteFails(id, torn), StorePoison(id), DropGuard(id)]);
    ExecThree(t, WriteFails(id, torn), StorePoison(id), DropGuard(id));
    assert t.agents - {id} == s.agents - {id};
  }

  lemma MessageBreaksAt(s: State, id: nat, n: nat, torn: bool)
    requires id in s.agents && s.agents[id].Writer? && s.agents[id].pc == Held(n)
    ensures var m := Message(s.agents[id].job);
            GoneWith(s, Step(Step(Step(s, WriteFails(id, torn)), StorePoison(id)), DropGuard(id)), id,
                     s.sh.Poison().ReleaseWriter(), s.h.wire + (if torn && n < |m| then [Torn] else []))
  {
    hide Message, Step;
    var t := Step(s, WriteFails(id, torn));
    FailsAt(s, id, n, torn);
    ThenPoisons(t, id);
    assert t.agents - {id} == s.agents - {id};
  }

  lemma FailsAt(s: State, id: nat, n: nat, torn: bool)
    requires id in s.agents && s.agents[id].Writer? && s.agents[id].pc == Held(n)
    ensures var t := Step(s, WriteFails(id, torn)); var m := Message(s.agents[id].job);
            && t.sh == s.sh && t.agents == s.agents[id := s.agents[id].(pc := Broken)]
            && t.h.wire == s.h.wire + (if torn && n < |m| then [Torn] else [])
  {
    hide Message;
  }

  lemma ThenPoisons(s: State, id: nat)
    requires id in s.agents && s.agents[id].Writer? && s.agents[id].pc.Broken?
    ensures GoneWith(s, Step(Step(s, StorePoison(id)), DropGuard(id)), id, s.sh.Poison().ReleaseWriter(), s.h.wire)
  {
    var u := Step(s, StorePoison(id));
    assert u.agents == s.agents[id := s.agents[id].(pc := Poisoned)] && u.sh == s.sh.Poison();
    assert u.agents - {id} == s.agents - {id};
  }

  // ----- every call --------------------------------------------------------

  /** The whole call, on a stream with room for that many more encode and flush calls. */
  function WriterRun(s: State, id: nat, room: nat, torn: bool): seq<Action>
    requires AtTop(s, id)
  {
    var n, m := RunLength(s.sh.autoFailures, s.sh.wServing), Message(s.agents[id].job);
    if s.sh.poisoned then GiveUpRun(s, id)
    else if room < 2 * n then DrainRun(id, room / 2) + DrainBreakRun(id, room % 2 == 1, torn)
    else if s.sh.wServing + n != s.agents[id].w then DrainRun(id, n) + AcquireRun(id)
    else DrainRun(id, n) + AcquireRun(id) + SendRun(id, |m|, room - 2 * n, torn)
  }

  /** A message of `m` fields, sent by the holder of the guard. */
  function SendRun(id: nat, m: nat, room: nat, torn: bool): seq<Action> {
    if m < room then WriteRun(id, m) + [Finish(id)] else MessageBreakRun(id, room, torn)
  }

  /** What becomes of the agent: it waits, reads the answer to its request, or is gone. */
  function Fate(g: Agent, w: Called): Option<Agent>
    requires g.Writer?
  {
    if w.acquired.Wait? then Some(g.(pc := Parked))
    else if w.ok && g.job.Request? then Some(Reader(g.job.readTicket, ReaderJob.Response(g.w), RAcquire))
    else None
  }

  /** What the call's run leaves is what the call leaves. */
  predicate Refines(s: State, t: State, id: nat, w: Called)
    requires id in s.agents && s.agents[id].Writer?
  {
    var fate := Fate(s.agents[id], w);
    && t.sh == w.core && t.h.wire == w.wire
    && t.agents == if fate.Some? then s.agents[id := fate.value] else s.agents - {id}
  }

  /**
   Left alone, a writing agent of the transition system does what the calls over
   ConversationShared do, whoever sends a request, a notice or a reply: in a poisoned session,
   when a queued failure or the message cannot be sent, and when it is not served yet.
   */
  lemma WriterRefines(s: State, id: nat, room: nat, torn: bool)
    requires AtTop(s, id)
    ensures Refines(s, Exec(s, WriterRun(s, id, room, torn)), id,
                    WriterCall(s.sh, s.h.wire, room, if torn then [Torn] else [], s.agents[id].w,
                               Message(s.agents[id].job)))
  {
    hide Step, Message, RunLength;
    var n := RunLength(s.sh.autoFailures, s.sh.wServing);
    if s.sh.poisoned {
      RunLengthIsLongest(s.sh.autoFailures, s.sh.wServing);
      GivesUp(s, id);
      EmptyRun(s.sh.autoFailures, s.sh.wServing);
    } else if room < 2 * n {
      RefinesBrokenDrain(s, id, room, torn);
    } else if s.sh.wServing + n != s.agents[id].w {
      DrainAlone(s, id, n);
      RunLengthIsLongest(s.sh.autoFailures, s.sh.wServing);
      Waits(Exec(s, DrainRun(id, n)), id);
      ExecAppend(s, DrainRun(id, n), AcquireRun(id));
    } else {
      RefinesSend(s, id, room, torn);
    }
  }

  lemma EmptyRun(queue: set<nat>, from: nat)
    ensures RunLength(queue, from) == 0 <==> from !in queue
  {}

  lemma RefinesBrokenDrain(s: State, id: nat, room: nat, torn: bool)
    requires AtLoop(s, id) && room < 2 * RunLength(s.sh.autoFailures, s.sh.wServing)
    ensures Refines(s, Exec(s, WriterRun(s, id, room, torn)), id,
                    WriterCall(s.sh, s.h.wire, room, if torn then [Torn] else [], s.agents[id].w,
                               Message(s.agents[id].job)))
  {
    hide Step, Message, RunLength, Exec;
    var n, k, queue, c := RunLength(s.sh.autoFailures, s.sh.wServing), room / 2, s.sh.autoFailures, s.sh.wServing;
    DrainAlone(s, id, k);
    RunLengthIsLongest(queue, c);
    assert c + k in Span(c, n);
    var t := Exec(s, DrainRun(id, k));
    DrainBreaks(t, id, room % 2 == 1, torn);
    ExecAppend(s, DrainRun(id, k), DrainBreakRun(id, room % 2 == 1, torn));
    assert queue - Span(c, k) - {c + k} == queue - Span(c, k + 1);
    Regroup(s.h.wire, Failures(k), if room % 2 == 1 then FAILURE else if torn then [Torn] else []);
  }

  lemma RefinesSend(s: State, id: nat, room: nat, torn: bool)
    requires AtLoop(s, id)
    requires var n := RunLength(s.sh.autoFailures, s.sh.wServing); 2 * n <= room && s.agents[id].w == s.sh.wServing + n
    ensures Refines(s, Exec(s, WriterRun(s, id, room, torn)), id,
                    WriterCall(s.sh, s.h.wire, room, if torn then [Torn] else [], s.agents[id].w,
                               Message(s.agents[id].job)))
  {
    hide Step, Message, RunLength, Exec;
    var n, m := RunLength(s.sh.autoFailures, s.sh.wServing), Message(s.agents[id].job);
    var left := room - 2 * n;
    DrainAlone(s, id, n);
    var s1 := Exec(s, DrainRun(id, n));
    RunLengthIsLongest(s.sh.autoFailures, s.sh.wServing);
    AcquireAlone(s1, id);
    var s2 := Put(s1, id, s1.agents[id].(pc := Held(0)));
    ExecAppend(s, DrainRun(id, n), AcquireRun(id));
    ExecAppend(s, DrainRun(id, n) + AcquireRun(id), SendRun(id, |m|, left, torn));
    assert s2.agents - {id} == s.agents - {id};
    if |m| < left {
      MessageFinished(s2, id);
    } else {
      MessageBreaks(s2, id, left, torn);
      assert m[..|m|] + [] == m && (left < |m| ==> m[..left] + [] == m[..left]);
    }
  }
}
