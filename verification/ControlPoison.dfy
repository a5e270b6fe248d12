/**
 Poison. On the writer nothing follows a broken message, even with every atomic access
 a step of its own, because `acquire_writer` compares the serving counter before it reads
 the poison flag. On the reader a waiter that read the flag just before the store may
 still get in, and only such a waiter. The error path of drain_auto_failures drops its
 guard before the poison store and is set apart by `drainFailed`. ControlWindows says
 exactly what these two gaps let through.
 */
module ControlPoison {
  import opened Prelude
  import opened Tickets
  import opened ControlStream
  import opened ControlInvariant
  import opened ControlWriteSteps
  import opened ControlReader
  import opened ControlTheorems

  /** Past the poison test for the writer, or holding its guard. */
  predicate PastPoisonTest(a: Agent) {
    HoldsWriter(a) || (a.Writer? && (a.pc.Clear? || a.pc.TookClear?))
  }

  predicate IsDrainBroken(a: Agent) { a.Writer? && a.pc.DrainBroken? }

  predicate PastReaderTest(a: Agent) {
    HoldsReader(a) || (a.Reader? && a.rpc.RClear?)
  }

  ghost predicate WriterMark(s: State, m: PoisonMark) {
    && m.wServing <= s.sh.wServing <= m.wServing + 1
    && (forall i :: i in s.agents && PastPoisonTest(s.agents[i]) ==> s.sh.wServing == m.wServing)
    && (!s.h.drainFailed ==> forall u :: u in s.h.broken ==> u == m.wServing)
  }

  ghost predicate ReaderMark(s: State, m: PoisonMark) {
    && m.rServing <= s.sh.rServing
    && (forall i :: i in s.agents && PastReaderTest(s.agents[i]) ==> s.agents[i].r in m.grace)
    && (forall r :: m.rServing <= r < s.sh.rServing ==> r in m.grace)
  }

  ghost predicate PoisonOk(s: State) {
    && (s.sh.poisoned <==> s.h.mark.Some?)
    && (s.h.mark.Some? ==> WriterMark(s, s.h.mark.value) && ReaderMark(s, s.h.mark.value))
    && (!s.h.drainFailed ==>
          && (forall i :: i in s.agents ==> !IsDrainBroken(s.agents[i]))
          && (!s.sh.poisoned ==> s.h.broken == {}))
  }

  // ----- steps -------------------------------------------------------------

  /** Inside acquire with its ticket served, and about to read the poison flag. */
  predicate AtPoisonTest(a: Agent) {
    a.Writer? && (a.pc.Acquire? || a.pc.Took?)
  }

  /** On an error path that drops its guard, or a handle's, only with or after the poison store. */
  predicate OnlyPoisons(a: Agent) {
    IsDrainBroken(a) || (a.Reader? && a.rjob.CallHeld? && a.rpc.RBroken?)
  }

  /** Only `id` moves, and no further than this. */
  ghost predicate Moves(s: State, s': State, id: nat) {
    && OnlyMoves(s, s', id)
    && s'.h.mark == s.h.mark && s'.sh.poisoned == s.sh.poisoned
    && (s'.h.drainFailed == s.h.drainFailed || s'.h.drainFailed)
    && (id in s'.agents && PastPoisonTest(s'.agents[id]) ==>
          id in s.agents
          && if PastPoisonTest(s.agents[id]) then s'.sh.wServing == s.sh.wServing
             else !s.sh.poisoned && AtPoisonTest(s.agents[id]))
    && (id in s'.agents && PastReaderTest(s'.agents[id]) && s.sh.poisoned ==>
          id in s.agents && PastReaderTest(s.agents[id]) && s'.agents[id].r == s.agents[id].r)
    && (id in s.agents && OnlyPoisons(s.agents[id]) ==> id in s'.agents && s'.agents[id] == s.agents[id])
    && (id in s'.agents && IsDrainBroken(s'.agents[id]) ==>
          s'.h.drainFailed || (id in s.agents && IsDrainBroken(s.agents[id])))
    && WriterMoves(s, s', id)
    && (s'.sh.rServing == s.sh.rServing
        || (id in s.agents && HoldsReader(s.agents[id]) && s'.sh.rServing == s.sh.rServing + 1))
  }

  predicate WriterMoves(s: State, s': State, id: nat) {
    || (s'.sh.wServing == s.sh.wServing && s'.h.broken == s.h.broken)
    || (&& id in s.agents && HoldsWriter(s.agents[id]) && s'.sh.wServing == s.sh.wServing + 1
        && s'.h.broken <= s.h.broken + {s.sh.wServing}
        && (s'.h.broken <= s.h.broken || s.sh.poisoned || s'.h.drainFailed))
  }

  predicate IsTestStep(a: Action) {
    a.DrainLoad? || a.DrainTake? || a.LoadPoison? || a.LoadServing? || a.Wake?
  }

  predicate IsWriteStep(a: Action) {
    a.Finish? || a.WriteFails? || a.DropGuard?
  }

  lemma LoadPoisonMoves(s: State, id: nat)
    requires id in s.agents
    ensures Moves(s, DoLoadPoison(s, id), id)
  {}

  lemma LoadServingMoves(s: State, id: nat)
    requires id in s.agents
    ensures Moves(s, DoLoadServing(s, id), id)
  {}

  lemma DrainTakeMoves(s: State, id: nat)
    requires id in s.agents
    ensures Moves(s, DoDrainTake(s, id), id)
  {}

  lemma LoopStepMoves(s: State, a: Action)
    requires a.DrainLoad? || a.Wake?
    ensures Moves(s, Step(s, a), a.id)
  {}

  lemma TestStepMoves(s: State, a: Action)
    requires IsTestStep(a)
    ensures Moves(s, Step(s, a), a.id)
  {
    if a.DrainLoad? || a.Wake? {
      LoopStepMoves(s, a);
    } else if a.id in s.agents {
      LoadPoisonMoves(s, a.id);
      LoadServingMoves(s, a.id);
      DrainTakeMoves(s, a.id);
    }
    hide Moves, DoLoadPoison, DoLoadServing, DoDrainTake;
  }

  lemma FinishMoves(s: State, id: nat)
    requires id in s.agents
    ensures Moves(s, DoFinish(s, id), id)
  {}

  lemma WriteFailsMoves(s: State, id: nat, torn: bool)
    requires id in s.agents
    ensures Moves(s, DoWriteFails(s, id, torn), id)
  {
    hide Message;
    if !HoldsWriter(s.agents[id]) {
      assert DoWriteFails(s, id, torn) == s;
      hide DoWriteFails;
    }
  }

  lemma DropGuardMoves(s: State, id: nat)
    requires id in s.agents
    requires s.agents[id].Writer? && s.agents[id].pc.Poisoned? ==> s.sh.poisoned
    ensures Moves(s, DoDropGuard(s, id), id)
  {}

  lemma WriteStepMoves(s: State, a: Action)
    requires IsWriteStep(a)
    requires a.id in s.agents && s.agents[a.id].Writer? && s.agents[a.id].pc.Poisoned? ==> s.sh.poisoned
    ensures Moves(s, Step(s, a), a.id)
  {
    if a.id in s.agents {
      match a
      case Finish(id) => FinishMoves(s, id);
      case WriteFails(id, torn) => WriteFailsMoves(s, id, torn);
      case DropGuard(id) => DropGuardMoves(s, id);
    }
  }

  predicate IsReadStep(a: Action) {
    a.ReadAnswer? || a.ReadFails? || a.ReadGarbled? || a.DecodeOk? || a.DropIncoming?
  }

  predicate IsAcceptStep(a: Action) {
    a.Accept? || a.AcceptFails? || a.AcceptGarbled? || a.TakeReply?
  }

  lemma AcceptStepMoves(s: State, a: Action)
    requires IsAcceptStep(a)
    ensures Moves(s, Step(s, a), a.id)
  {
    hide DoFinishPair, DoDrainTake, DoLoadPoison, DoLoadServing, DoWriteField, DoFinish, DoWriteFails,
         DoStorePoison, DoDropGuard, DoReadAnswer, DoReadFails, DoReadGarbled, DoDecodeOk, DoDropIncoming,
         DoRespond, DoDropDecoded;
  }

  lemma AnswerStepMoves(s: State, a: Action)
    requires a.ReadAnswer? || a.ReadFails? || a.ReadGarbled?
    ensures Moves(s, Step(s, a), a.id)
  {}

  lemma HandleStepMoves(s: State, a: Action)
    requires a.DecodeOk? || a.DropIncoming?
    ensures Moves(s, Step(s, a), a.id)
  {
    hide DoFinishPair, DoDrainTake, DoLoadPoison, DoLoadServing, DoWriteField, DoFinish, DoWriteFails,
         DoStorePoison, DoDropGuard, DoReadAnswer, DoReadFails, DoReadGarbled, DoAccept, DoAcceptFails,
         DoAcceptGarbled, DoTakeReply, DoRespond, DoDropDecoded;
  }

  predicate IsStartStep(a: Action) {
    a.StartRequest? || a.StartNotice? || a.StartAccept?
  }

  lemma StartStepMoves(s: State, a: Action)
    requires IsStartStep(a)
    ensures Moves(s, Step(s, a), a.id)
  {}

  lemma OtherStepMoves(s: State, a: Action)
    requires !IsTestStep(a) && !IsWriteStep(a) && !IsReadStep(a) && !IsAcceptStep(a) && !IsStartStep(a)
    requires !a.StorePoison?
    ensures Moves(s, Step(s, a), a.id)
  {
    hide DoDrainTake, DoLoadPoison, DoLoadServing, DoFinish, DoWriteFails, DoStorePoison, DoDropGuard,
         DoReadAnswer, DoReadFails, DoReadGarbled, DoAccept, DoAcceptFails, DoAcceptGarbled, DoTakeReply,
         DoDecodeOk, DoDropIncoming;
  }

  /** No step but a poison store makes more of a difference than `Moves` says. */
  lemma StepMoves(s: State, a: Action)
    requires !a.StorePoison?
    requires a.id in s.agents && s.agents[a.id].Writer? && s.agents[a.id].pc.Poisoned? ==> s.sh.poisoned
    ensures Moves(s, Step(s, a), a.id)
  {
    hide Step, Moves;
    if IsTestStep(a) { TestStepMoves(s, a); }
    else if IsWriteStep(a) { WriteStepMoves(s, a); }
    else if a.DecodeOk? || a.DropIncoming? { HandleStepMoves(s, a); }
    else if IsReadStep(a) { AnswerStepMoves(s, a); }
    else if IsAcceptStep(a) { AcceptStepMoves(s, a); }
    else if IsStartStep(a) { StartStepMoves(s, a); }
    else { OtherStepMoves(s, a); }
  }

  lemma MovesKept(s: State, s': State, id: nat)
    requires Inv(s) && PoisonOk(s) && Moves(s, s', id)
    ensures PoisonOk(s')
  {
    if s.h.mark.Some? {
      var m := s.h.mark.value;
      WriterMovesKept(s, s', id, m);
      ReaderMovesKept(s, s', id, m);
    }
  }

  lemma WriterMovesKept(s: State, s': State, id: nat, m: PoisonMark)
    requires Inv(s) && s.sh.poisoned && WriterMark(s, m) && Moves(s, s', id)
    ensures WriterMark(s', m)
  {
    if s'.sh.wServing != s.sh.wServing {
      assert AgentOk(s, s.agents[id]);
      assert OwnsWriter(s.agents[id], s.sh.wServing);
      forall i | i in s'.agents ensures !PastPoisonTest(s'.agents[i]) {
        if i != id && PastPoisonTest(s.agents[i]) {
          assert AgentOk(s, s.agents[i]);
          assert OwnsWriter(s.agents[i], s.sh.wServing);
        }
      }
    }
  }

  lemma ReaderMovesKept(s: State, s': State, id: nat, m: PoisonMark)
    requires Inv(s) && s.sh.poisoned && ReaderMark(s, m) && Moves(s, s', id)
    ensures ReaderMark(s', m)
  {
    if s'.sh.rServing != s.sh.rServing {
      assert AgentOk(s, s.agents[id]);
    }
    forall i | i in s'.agents && PastReaderTest(s'.agents[i])
      ensures s'.agents[i].r in m.grace
    {
      assert i in s.agents && PastReaderTest(s.agents[i]) && s'.agents[i].r == s.agents[i].r;
    }
  }

  lemma StorePoisonOk(s: State, id: nat)
    requires Inv(s) && PoisonOk(s)
    ensures PoisonOk(Step(s, StorePoison(id)))
  {
    var s' := Step(s, StorePoison(id));
    if s' != s {
      assert AgentOk(s, s.agents[id]);
      hide PoisonOk, Inv;
      if s.h.mark.None? {
        FirstStore(s, id);
      } else {
        LaterStore(s, id);
      }
    }
  }

  lemma LaterStore(s: State, id: nat)
    requires PoisonOk(s) && id in s.agents && s.h.mark.Some?
    ensures PoisonOk(DoStorePoison(s, id))
  {
    var s', m := DoStorePoison(s, id), s.h.mark.value;
    LaterStoreWriter(s, s', id, m);
    LaterStoreReader(s, s', id, m);
    hide WriterMark, ReaderMark;
  }

  lemma LaterStoreWriter(s: State, s': State, id: nat, m: PoisonMark)
    requires WriterMark(s, m) && id in s.agents && s' == DoStorePoison(s, id)
    ensures WriterMark(s', m)
  {}

  lemma LaterStoreReader(s: State, s': State, id: nat, m: PoisonMark)
    requires ReaderMark(s, m) && id in s.agents && s' == DoStorePoison(s, id)
    ensures ReaderMark(s', m)
  {}

  lemma FirstStore(s: State, id: nat)
    requires PoisonOk(s) && id in s.agents && s.h.mark.None? && DoStorePoison(s, id) != s
    ensures PoisonOk(DoStorePoison(s, id))
  {
    var s' := DoStorePoison(s, id);
    FirstStoreWriter(s, s', id);
    ReadersStay(s, s', id);
    FirstStoreReader(s, s', s'.h.mark.value);
    hide WriterMark, ReaderMark, PastReaderTest, HoldsReader, Grace;
  }

  lemma ReadersStay(s: State, s': State, id: nat)
    requires id in s.agents && s' == DoStorePoison(s, id)
    ensures forall i :: i in s'.agents && PastReaderTest(s'.agents[i]) ==>
              i in s.agents && PastReaderTest(s.agents[i]) && s'.agents[i].r == s.agents[i].r
    ensures forall i :: i in s.agents && PastReaderTest(s.agents[i]) ==>
              i in s'.agents && PastReaderTest(s'.agents[i]) && s'.agents[i].r == s.agents[i].r
  {}

  lemma FirstStoreWriter(s: State, s': State, id: nat)
    requires PoisonOk(s) && s.h.mark.None? && id in s.agents
    requires s' == DoStorePoison(s, id) && s' != s
    ensures WriterMark(s', s'.h.mark.value)
  {}

  lemma FirstStoreReader(s: State, s': State, m: PoisonMark)
    requires m.rServing == s.sh.rServing == s'.sh.rServing && m.grace == Grace(s.agents)
    requires forall i :: i in s'.agents && PastReaderTest(s'.agents[i]) ==>
               i in s.agents && PastReaderTest(s.agents[i]) && s'.agents[i].r == s.agents[i].r
    ensures ReaderMark(s', m)
  {
    forall i | i in s'.agents && PastReaderTest(s'.agents[i])
      ensures s'.agents[i].r in m.grace
    {
      assert i in s.agents && PastReaderTest(s.agents[i]) && s'.agents[i].r == s.agents[i].r;
    }
  }

  lemma {:induction false} PoisonRun(input: seq<InMsg>, acts: seq<Action>)
    ensures PoisonOk(Run(input, acts))
  {
    if acts != [] {
      var acts', a := acts[..|acts| - 1], acts[|acts| - 1];
      PoisonRun(input, acts');
      RunKept(input, acts');
      var s := Run(input, acts');
      if a.StorePoison? { StorePoisonOk(s, a.id); }
      else {
        assert a.id in s.agents && s.agents[a.id].Writer? && s.agents[a.id].pc.Poisoned? ==> s.sh.poisoned by {
          if a.id in s.agents { assert AgentOk(s, s.agents[a.id]); }
        }
        StepMoves(s, a);
        MovesKept(s, Step(s, a), a.id);
      }
    }
  }

  // ----- results -----------------------------------------------------------

  /** Poison is never undone, and neither is the record of the first store. */
  lemma {:induction false} PoisonIsForever(input: seq<InMsg>, acts: seq<Action>, more: seq<Action>)
    requires Run(input, acts).sh.poisoned
    ensures Run(input, acts + more).sh.poisoned
    ensures Run(input, acts + more).h.mark == Run(input, acts).h.mark
  {
    hide Step, Inv, WriterMark, ReaderMark;
    PoisonRun(input, acts);
    if more == [] {
      assert acts + more == acts;
    } else {
      var more', a := more[..|more| - 1], more[|more| - 1];
      assert (acts + more)[..|acts + more| - 1] == acts + more';
      PoisonIsForever(input, acts, more');
      PoisonKept(Run(input, acts + more'), a);
    }
  }

  lemma PoisonKept(s: State, a: Action)
    requires s.sh.poisoned && s.h.mark.Some?
    ensures Step(s, a).sh.poisoned && Step(s, a).h.mark == s.h.mark
  {
    if !a.StorePoison? { StepMoves(s, a); }
  }

  /** Without poison, and without an I/O error inside a drain, no write has failed. */
  lemma UnpoisonedIsWhole(input: seq<InMsg>, acts: seq<Action>)
    requires !Run(input, acts).sh.poisoned && !Run(input, acts).h.drainFailed
    ensures Run(input, acts).h.broken == {}
  {
    PoisonRun(input, acts);
  }

  /** A failed write is on record only after the poison store, and after a failed write of
      ticket `t` no ticket writes anything. */
  lemma NothingAfterBrokenMessage(input: seq<InMsg>, acts: seq<Action>, t: nat, u: nat)
    requires var s := Run(input, acts); !s.h.drainFailed && t in s.h.broken && t < u
    ensures Run(input, acts).sh.poisoned && Written(Run(input, acts), u) == []
  {
    PoisonRun(input, acts);
    RunKept(input, acts);
    var s := Run(input, acts);
    assert u == |s.h.chunks| ==> forall i :: i in s.agents ==> !PastPoisonTest(s.agents[i]);
  }

  /** Whoever caused it, after a poison store at most the ticket then served still writes. */
  lemma AtMostOneWriterAfterPoison(input: seq<InMsg>, acts: seq<Action>, u: nat)
    requires var s := Run(input, acts); s.sh.poisoned && s.h.mark.Some? && s.h.mark.value.wServing < u
    ensures Written(Run(input, acts), u) == []
  {
    PoisonRun(input, acts);
    RunKept(input, acts);
    var s := Run(input, acts);
    assert u == |s.h.chunks| ==> forall i :: i in s.agents ==> !PastPoisonTest(s.agents[i]);
  }

  predicate PastTest(a: Agent) { a.Reader? && a.rpc.RClear? }

  /** Every agent that has read the poison flag as false moves next: `acquire`'s two tests
      are one step. */
  ghost predicate AtomicAcquires(input: seq<InMsg>, acts: seq<Action>) {
    acts == []
    || var s := Run(input, acts[..|acts| - 1]);
       && AtomicAcquires(input, acts[..|acts| - 1])
       && forall i :: i in s.agents && PastTest(s.agents[i]) ==> acts[|acts| - 1] == LoadServing(i)
  }

  lemma HeldIsServed(s: State)
    requires Inv(s)
    ensures forall i :: i in s.agents && HoldsReader(s.agents[i]) ==> s.agents[i].r == s.sh.rServing
  {
    hide NumbersOk, QueueOk, LockOk, NothingLost, WireOk, PairsOk;
    forall i | i in s.agents && HoldsReader(s.agents[i])
      ensures s.agents[i].r == s.sh.rServing
    {
      assert AgentOk(s, s.agents[i]);
    }
  }

  /** Then the first poison store finds nobody past the test but the holder of the guard. */
  lemma {:induction false} NoGrace(input: seq<InMsg>, acts: seq<Action>)
    requires AtomicAcquires(input, acts)
    ensures var mark := Run(input, acts).h.mark;
            mark.Some? ==> forall r :: r in mark.value.grace ==> r == mark.value.rServing
  {
    if acts != [] {
      var acts', a := acts[..|acts| - 1], acts[|acts| - 1];
      NoGrace(input, acts');
      var s := Run(input, acts');
      PoisonRun(input, acts');
      if s.sh.poisoned { PoisonKept(s, a); }
      else if !a.StorePoison? {
        assert a.id in s.agents && s.agents[a.id].Writer? ==> !s.agents[a.id].pc.Poisoned? by {
          RunKept(input, acts');
          if a.id in s.agents { assert AgentOk(s, s.agents[a.id]); }
        }
        StepMoves(s, a);
      } else {
        assert forall i :: i in s.agents ==> !PastTest(s.agents[i]);
        RunKept(input, acts');
        HeldIsServed(s);
      }
    }
  }

  /** With `acquire`'s two tests as one step, after a poison store no reader ticket but the
      one then served ever holds the guard. */
  lemma NoReaderAfterPoison(input: seq<InMsg>, acts: seq<Action>, i: nat)
    requires AtomicAcquires(input, acts)
    requires var s := Run(input, acts); s.h.mark.Some? && i in s.agents && HoldsReader(s.agents[i])
    ensures var s := Run(input, acts); s.agents[i].r == s.h.mark.value.rServing
  {
    NoGrace(input, acts);
    PoisonRun(input, acts);
  }

  // ----- the late poison store of a drain ----------------------------------

  /** A drain fails while the owner of the next ticket is at the top of its own loop. */
  lemma DrainGoesWrong(s: State, id: nat, j: nat, torn: bool)
    requires Inv(s) && !s.sh.poisoned && id in s.agents && j in s.agents
    requires s.agents[id].Writer? && s.agents[id].pc.DrainHeld?
    requires s.agents[j].Writer? && s.agents[j].w == s.sh.wServing + 1 && s.agents[j].pc.Loop?
    ensures var t := Step(s, WriteFails(id, torn));
            && !t.sh.poisoned && t.sh.wServing == s.sh.wServing + 1
            && s.sh.wServing in t.h.broken && t.h.cur == [] && |t.h.chunks| == t.sh.wServing
            && j in t.agents && t.agents[j] == s.agents[j]
            && t.sh.wServing !in t.sh.autoFailures
  {
    assert AgentOk(s, s.agents[id]);
    assert OwnsWriter(s.agents[j], s.sh.wServing + 1);
  }

  /** Nothing drained, the owner of the served ticket goes on to acquire it. */
  lemma DrainPasses(t: State, j: nat)
    requires j in t.agents && t.agents[j].Writer? && t.agents[j].w == t.sh.wServing && t.agents[j].pc.Loop?
    requires t.sh.wServing !in t.sh.autoFailures
    ensures Step(Step(Step(t, DrainLoad(j)), DrainTake(j)), LoadServing(j))
            == Put(t, j, t.agents[j].(pc := Acquire))
  {
    var g := t.agents[j];
    var t1 := Step(t, DrainLoad(j));
    assert t1 == Put(t, j, g.(pc := Loaded(t.sh.wServing)));
    var t2 := Step(t1, DrainTake(j));
    assert t2 == Put(t, j, g.(pc := Turn));
  }

  /** ... and nothing keeps that owner from writing before the poison store. */
  lemma DrainLetsIn(t: State, j: nat)
    requires !t.sh.poisoned && t.h.cur == [] && |t.h.chunks| == t.sh.wServing
    requires j in t.agents && t.agents[j].Writer? && t.agents[j].w == t.sh.wServing && t.agents[j].pc.Loop?
    requires t.sh.wServing !in t.sh.autoFailures
    ensures var t1 := Step(Step(Step(t, DrainLoad(j)), DrainTake(j)), LoadServing(j));
            var t' := Step(Step(Step(t1, LoadPoison(j)), LoadServing(j)), WriteField(j));
            && !t'.sh.poisoned && t'.h.broken == t.h.broken
            && Written(t', t.sh.wServing) == [Message(t.agents[j].job)[0]]
  {
    DrainPasses(t, j);
    OwnerAcquires(Put(t, j, t.agents[j].(pc := Acquire)), j);
  }

  lemma OwnerAcquires(t: State, j: nat)
    requires !t.sh.poisoned && t.h.cur == [] && |t.h.chunks| == t.sh.wServing
    requires j in t.agents && t.agents[j].Writer? && t.agents[j].w == t.sh.wServing && t.agents[j].pc.Acquire?
    ensures var t' := Step(Step(Step(t, LoadPoison(j)), LoadServing(j)), WriteField(j));
            && !t'.sh.poisoned && t'.h.broken == t.h.broken
            && Written(t', t.sh.wServing) == [Message(t.agents[j].job)[0]]
  {
    var g := t.agents[j];
    var t1 := Step(t, LoadPoison(j));
    assert t1 == Put(t, j, g.(pc := Clear));
    var t2 := Step(t1, LoadServing(j));
    assert t2 == Put(t, j, g.(pc := Held(0)));
  }

  /** Agent 0 accepts a request and drops it; agents 1 and 2 take tickets 1 and 2;
      agent 2 drains the dropped reply. */
  const LATE_STORE: seq<Action> := [
    StartAccept(0), LoadPoison(0), LoadServing(0), Accept(0), TakeReply(0), DecodeOk(0),
    StartNotice(1, "a", []), StartNotice(2, "b", []), DropDecoded(0),
    DrainLoad(2), DrainTake(2), LoadPoison(2), LoadServing(2)]

  lemma LateStep(n: nat)
    requires n < |LATE_STORE|
    ensures Run([Call(true)], LATE_STORE[..n + 1]) == Step(Run([Call(true)], LATE_STORE[..n]), LATE_STORE[n])
  {
    assert LATE_STORE[..n + 1][..n] == LATE_STORE[..n];
  }

  lemma LateStart()
    ensures Run([Call(true)], LATE_STORE[..1])
            == Init([Call(true)]).(sh := FRESH.(rNext := 1), agents := map[0 := Reader(0, Accepting, RAcquire)])
  {
    assert LATE_STORE[..0] == [];
    LateStep(0);
  }

  lemma LateReading()
    ensures Run([Call(true)], LATE_STORE[..3])
            == Init([Call(true)]).(sh := FRESH.(rNext := 1), agents := map[0 := Reader(0, Accepting, RHeld)])
  {
    hide Run;
    LateStart();
    LateStep(1);
    LateStep(2);
  }

  lemma LateHeader()
    ensures var s := Run([Call(true)], LATE_STORE[..4]);
            && s.agents == map[0 := Reader(0, HeaderRead(true, 0), RHeld)]
            && s.sh == FRESH.(rNext := 1) && s.lock == None && s.h.purpose == []
  {
    hide Run;
    LateReading();
    LateStep(3);
  }

  lemma LateHandle()
    ensures var s := Run([Call(true)], LATE_STORE[..5]);
            && s.agents == map[0 := Reader(0, CallHeld(0, 0), RHeld)]
            && s.sh == FRESH.(rNext := 1, wNext := 1) && s.lock == None
  {
    hide Run;
    LateHeader();
    LateStep(4);
    assert ReplyTickets([]) == [];
  }

  lemma LateAccepted()
    ensures var s := Run([Call(true)], LATE_STORE[..6]);
            && s.agents == map[0 := Decoded(0, 0)]
            && s.sh == FRESH.(rNext := 1, rServing := 1, wNext := 1) && s.lock == None
  {
    hide Run;
    LateHandle();
    LateStep(5);
  }

  lemma LateNotice()
    ensures var s := Run([Call(true)], LATE_STORE[..7]);
            && s.agents == map[0 := Decoded(0, 0), 1 := Writer(1, Notice("a", []), Loop)]
            && s.sh == FRESH.(rNext := 1, rServing := 1, wNext := 2)
  {
    hide Run;
    LateAccepted();
    LateStep(6);
  }

  lemma LateNotices()
    ensures var s := Run([Call(true)], LATE_STORE[..8]);
            && s.agents == map[0 := Decoded(0, 0), 1 := Writer(1, Notice("a", []), Loop),
                               2 := Writer(2, Notice("b", []), Loop)]
            && s.sh == FRESH.(rNext := 1, rServing := 1, wNext := 3)
  {
    hide Run;
    LateNotice();
    LateStep(7);
  }

  lemma LateWaiting()
    ensures var s := Run([Call(true)], LATE_STORE[..9]);
            && 1 in s.agents && s.agents[1] == Writer(1, Notice("a", []), Loop)
            && 2 in s.agents && s.agents[2] == Writer(2, Notice("b", []), Loop)
            && s.sh == FRESH.(rNext := 1, rServing := 1, wNext := 3, autoFailures := {0})
  {
    hide Run;
    LateNotices();
    LateStep(8);
  }

  lemma LateTook()
    ensures var s := Run([Call(true)], LATE_STORE[..11]);
            && 1 in s.agents && s.agents[1] == Writer(1, Notice("a", []), Loop)
            && 2 in s.agents && s.agents[2] == Writer(2, Notice("b", []), Took(0))
            && !s.sh.poisoned && s.sh.wServing == 0
  {
    hide Run;
    LateWaiting();
    LateStep(9);
    LateStep(10);
  }

  lemma LateDraining()
    ensures var s := Run([Call(true)], LATE_STORE);
            && 1 in s.agents && s.agents[1] == Writer(1, Notice("a", []), Loop)
            && 2 in s.agents && s.agents[2] == Writer(2, Notice("b", []), DrainHeld(0, 0))
            && !s.sh.poisoned && s.sh.wServing == 0
  {
    hide Run;
    LateTook();
    LateStep(11);
    LateStep(12);
    assert LATE_STORE[..13] == LATE_STORE;
  }

  /** The error path of drain_auto_failures lets a message follow a torn one. */
  lemma DrainErrorIsExposed()
    ensures var s := Run([Call(true)], LATE_STORE
                         + [WriteFails(2, true), DrainLoad(1), DrainTake(1), LoadServing(1),
                            LoadPoison(1), LoadServing(1), WriteField(1)]);
            0 in s.h.broken && !s.sh.poisoned && Written(s, 1) == [MsgType(GLOBAL_REQUEST)]
  {
    hide Step, Run, Inv, Written, LATE_STORE;
    var input, a := [Call(true)], LATE_STORE;
    LateDraining();
    RunKept(input, a);
    DrainGoesWrong(Run(input, a), 2, 1, true);
    DrainLetsIn(Step(Run(input, a), WriteFails(2, true)), 1);
    RunSnoc(input, a, WriteFails(2, true));
    RunSix(input, a + [WriteFails(2, true)], DrainLoad(1), DrainTake(1), LoadServing(1),
           LoadPoison(1), LoadServing(1), WriteField(1));
    var six := [DrainLoad(1), DrainTake(1), LoadServing(1), LoadPoison(1), LoadServing(1), WriteField(1)];
    assert a + [WriteFails(2, true)] + six
        == a + [WriteFails(2, true), DrainLoad(1), DrainTake(1), LoadServing(1), LoadPoison(1), LoadServing(1),
                WriteField(1)];
  }

  lemma RunSix(input: seq<InMsg>, acts: seq<Action>,
               a: Action, b: Action, c: Action, d: Action, e: Action, f: Action)
    ensures Run(input, acts + [a, b, c, d, e, f])
            == Step(Step(Step(Step(Step(Step(Run(input, acts), a), b), c), d), e), f)
  {
    hide Run, Step;
    RunSnoc(input, acts, a);
    RunSnoc(input, acts + [a], b);
    RunSnoc(input, acts + [a] + [b], c);
    RunSnoc(input, acts + [a] + [b] + [c], d);
    RunSnoc(input, acts + [a] + [b] + [c] + [d], e);
    RunSnoc(input, acts + [a] + [b] + [c] + [d] + [e], f);
    assert acts + [a] + [b] + [c] + [d] + [e] + [f] == acts + [a, b, c, d, e, f];
  }
}
