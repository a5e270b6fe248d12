/**
 What a response that cannot be read does to the ones behind it: the call returns an error,
 the session is not poisoned, and the next call reads on from wherever the reader stands.
 */
module AnswerSlips {
  import opened Prelude
  import opened ControlStream
  import opened ControlReader
  import opened WriterRuns

  /** Nobody is writing or reading, and nothing is queued. */
  predicate Quiet(s: State, id: nat) {
    && id !in s.agents && s.lock.None? && s.h.cur == [] && s.h.broken == {}
    && !s.sh.poisoned && s.sh.autoFailures == {} && s.sh.wServing == s.sh.wNext && s.sh.rServing == s.sh.rNext
  }

  /** A request that is sent, and whose answer is about to be read. */
  function RequestRun(id: nat): seq<Action> {
    [StartRequest(id, "a", []), FinishPair(id)]
    + (AcquireRun(id) + (WriteRun(id, 4) + [Finish(id)]))
    + [LoadPoison(id), LoadServing(id)]
  }

  /** The state it leaves. */
  predicate AboutToRead(s: State, t: State, id: nat) {
    && t.agents == s.agents[id := Reader(s.sh.rNext, ReaderJob.Response(s.sh.wNext), RHeld)]
    && t.sh == s.sh.TakeWriter().TakeReader().ReleaseWriter()
    && t.lock == None && t.input == s.input && t.rpos == s.rpos && t.synced == s.synced
    && t.h.cur == [] && t.h.broken == {} && t.h.delivered == s.h.delivered
    && t.h.purpose == s.h.purpose + [OutRequest("a", [])]
  }

  lemma TakesWriteTicket(s: State, id: nat)
    requires Quiet(s, id)
    ensures var t := Step(s, StartRequest(id, "a", []));
            t == s.(sh := s.sh.TakeWriter(), lock := Some(id), agents := s.agents[id := Pairing(s.sh.wNext, "a", [])],
                    h := s.h.(purpose := s.h.purpose + [OutRequest("a", [])]))
  {}

  lemma TakesReadTicket(s: State, id: nat)
    requires id in s.agents && s.agents[id].Pairing?
    ensures var t, g := Step(s, FinishPair(id)), s.agents[id];
            t == s.(sh := s.sh.TakeReader(), lock := None, h := s.h.(pairs := t.h.pairs),
                    agents := s.agents[id := Writer(g.w, Request(g.name, g.data, s.sh.rNext), Loop)])
  {}

  lemma RequestStarts(s: State, id: nat)
    requires Quiet(s, id)
    ensures var t := Exec(s, [StartRequest(id, "a", []), FinishPair(id)]);
            && t == s.(sh := s.sh.TakeWriter().TakeReader(), lock := None, agents := t.agents, h := t.h)
            && t.agents == s.agents[id := Writer(s.sh.wNext, Request("a", [], s.sh.rNext), Loop)]
            && t.h == s.h.(purpose := s.h.purpose + [OutRequest("a", [])], pairs := t.h.pairs)
  {
    hide Step, Exec;
    ExecTwo(s, StartRequest(id, "a", []), FinishPair(id));
    TakesWriteTicket(s, id);
    TakesReadTicket(Step(s, StartRequest(id, "a", [])), id);
  }

  lemma AnswerAwaited(s: State, id: nat, w: nat)
    requires id in s.agents && s.agents[id] == Reader(s.sh.rServing, ReaderJob.Response(w), RAcquire)
    requires !s.sh.poisoned
    ensures Exec(s, [LoadPoison(id), LoadServing(id)])
            == Put(s, id, Reader(s.sh.rServing, ReaderJob.Response(w), RHeld))
  {
    ExecTwo(s, LoadPoison(id), LoadServing(id));
    var t := Put(s, id, Reader(s.sh.rServing, ReaderJob.Response(w), RClear));
    assert t == Step(s, LoadPoison(id));
    assert t.agents[id := Reader(s.sh.rServing, ReaderJob.Response(w), RHeld)]
        == s.agents[id := Reader(s.sh.rServing, ReaderJob.Response(w), RHeld)];
  }

  lemma RequestReads(s: State, id: nat)
    requires Quiet(s, id)
    ensures AboutToRead(s, Exec(s, RequestRun(id)), id)
  {
    hide Step, Exec;
    var start, send := [StartRequest(id, "a", []), FinishPair(id)], WriteRun(id, 4) + [Finish(id)];
    RequestStarts(s, id);
    var s2 := Exec(s, start);
    AcquireAlone(s2, id);
    var s3 := Put(s2, id, s2.agents[id].(pc := Held(0)));
    MessageFinished(s3, id);
    var s4 := AfterMessage(s3, id);
    AnswerAwaited(s4, id, s.sh.wNext);
    ExecAppend(s2, AcquireRun(id), send);
    ExecAppend(s, start, AcquireRun(id) + send);
    ExecAppend(s, start + (AcquireRun(id) + send), [LoadPoison(id), LoadServing(id)]);
  }

  /** Two requests; what answers the first is no response, and the second is given any value. */
  function SlipRun(v: int): seq<Action> {
    RequestRun(0) + [ReadAnswer(0)] + RequestRun(1) + [ReadGarbled(1, v)]
  }

  /**
   A message that is no response makes the first call fail and leaves the reader out of step:
   the second request may then be given anything, the answer to the first one for instance.
   */
  lemma AnswersSlip(a: int, v: int)
    ensures var input := [Junk, InMsg.Answer(a)]; var s := Run(input, SlipRun(v));
            && !s.sh.poisoned && s.h.broken == {} && !s.synced
            && RequestTickets(s.h.purpose) == [0, 1] && Answers(input) == [a]
            && s.h.delivered == map[1 := v]
  {
    var input := [Junk, InMsg.Answer(a)];
    assert input[..1] == [Junk] && input[..0] == [];
    ReadOne(input, 0);
    ReadOne(input, 1);
    assert input[..2] == input;
    hide Exec, AboutToRead, Answers, RequestTickets;
    var s0 := Init(input);
    RequestReads(s0, 0);
    var s1 := Exec(s0, RequestRun(0));
    ReadsJunk(s0, s1, 0);
    var s2 := Step(s1, ReadAnswer(0));
    RequestReads(s2, 1);
    var s3 := Exec(s2, RequestRun(1));
    ReadsAnything(s2, s3, 1, v);
    BothTickets();
    ExecSnoc(s0, RequestRun(0), ReadAnswer(0));
    ExecAppend(s0, RequestRun(0) + [ReadAnswer(0)], RequestRun(1));
    ExecSnoc(s0, RequestRun(0) + [ReadAnswer(0)] + RequestRun(1), ReadGarbled(1, v));
  }

  lemma ReadsJunk(s: State, t: State, id: nat)
    requires Quiet(s, id) && AboutToRead(s, t, id) && s.synced && s.rpos < |s.input| && s.input[s.rpos].Junk?
    ensures var u := Step(t, ReadAnswer(id));
            && u.sh == t.sh.ReleaseReader() && u.agents == s.agents && !u.synced
            && u.lock == None && u.h == t.h
  {
    assert t.agents - {id} == s.agents;
  }

  lemma ReadsAnything(s: State, t: State, id: nat, v: int)
    requires Quiet(s, id) && AboutToRead(s, t, id) && !s.synced
    ensures var u := Step(t, ReadGarbled(id, v));
            && u.sh == t.sh.ReleaseReader() && !u.synced && u.h == t.h.(delivered := t.h.delivered[s.sh.wNext := v])
  {}

  lemma BothTickets()
    ensures RequestTickets([OutRequest("a", []), OutRequest("a", [])]) == [0, 1]
  {
    var p := [OutRequest("a", []), OutRequest("a", [])];
    assert p[..1] == [p[0]] && p[..1][..0] == [];
  }

  /** The reader does not come back into step. */
  lemma {:induction false} StaysOutOfStep(s: State, more: seq<Action>)
    requires !s.synced
    ensures !Exec(s, more).synced
  {
    hide Step;
    if more != [] {
      StaysOutOfStep(s, more[..|more| - 1]);
      StepOutOfStep(Exec(s, more[..|more| - 1]), more[|more| - 1]);
    }
  }

  lemma StepOutOfStep(s: State, a: Action)
    requires !s.synced
    ensures !Step(s, a).synced
  {}
}
