/**
 The two gaps in poison safety, exactly. Each says of every run when something can still
 happen in some continuation: a message after one that failed inside a drain, and a reader
 guard after the first poison store.
 */
module ControlWindows {
  import opened Prelude
  import opened Tickets
  import opened ControlStream
  import opened ControlInvariant
  import opened ControlWriteSteps
  import opened ControlReader
  import opened ControlTheorems
  import opened ControlPoison

  // ----- writing after a failed drain --------------------------------------

  /** In some continuation a ticket behind `t` writes. */
  ghost predicate CanWrite(s: State, t: nat) {
    exists more, u :: t < u && Written(Exec(s, more), u) != []
  }

  lemma CanWriteBefore(s: State, a: Action, t: nat)
    requires CanWrite(Step(s, a), t)
    ensures CanWrite(s, t)
  {
    hide Step, Written;
    var more, u :| t < u && Written(Exec(Step(s, a), more), u) != [];
    ExecCons(s, a, more);
  }

  predicate NobodyPastTest(s: State) {
    forall i :: i in s.agents ==> !PastPoisonTest(s.agents[i])
  }

  /** Some agent is answerable for ticket `u` and can do nothing but poison the session. */
  ghost predicate OwnerOnlyPoisons(s: State, u: nat) {
    exists j :: j in s.agents && OwnsWriter(s.agents[j], u) && OnlyPoisons(s.agents[j])
  }

  /** Ticket `u` is served and will never be acquired. */
  ghost predicate Dead(s: State, u: nat) {
    s.sh.wServing == u && NobodyPastTest(s) && (s.sh.poisoned || OwnerOnlyPoisons(s, u))
  }

  lemma DeadWritesNothing(s: State, u: nat, v: nat)
    requires Inv(s) && Dead(s, u) && u <= v
    ensures Written(s, v) == []
  {
    assert WireOk(s);
    hide NumbersOk, AgentsOk, QueueOk, LockOk, NothingLost, PairsOk, OwnerOnlyPoisons, WroteAll, WrotePart;
  }

  lemma StorePoisonDead(s: State, id: nat, u: nat)
    requires Dead(s, u)
    ensures Dead(Step(s, StorePoison(id)), u)
  {
    var s' := Step(s, StorePoison(id));
    if s' != s {
      assert s'.sh.poisoned && s'.sh.wServing == u;
      assert forall i :: i in s'.agents ==> i in s.agents && !PastPoisonTest(s'.agents[i]);
    }
  }

  /** Whoever could pass the test owns the served ticket, and that is the one who only poisons. */
  lemma NobodyEnters(s: State, i: nat, u: nat)
    requires Inv(s) && Dead(s, u) && !s.sh.poisoned && i in s.agents
    ensures !AtPoisonTest(s.agents[i])
  {
    var j :| j in s.agents && OwnsWriter(s.agents[j], u) && OnlyPoisons(s.agents[j]);
    var a := s.agents[i];
    assert AgentOk(s, a);
    assert AtPoisonTest(a) ==> OwnsWriter(a, u);
    hide NumbersOk, QueueOk, LockOk, NothingLost, WireOk, PairsOk, SoleReaderOwners, NobodyPastTest;
  }

  lemma MovesDead(s: State, s': State, id: nat, u: nat)
    requires Inv(s) && Dead(s, u) && Moves(s, s', id)
    ensures Dead(s', u)
  {
    if !s.sh.poisoned {
      if id in s.agents { NobodyEnters(s, id, u); }
      var j :| j in s.agents && OwnsWriter(s.agents[j], u) && OnlyPoisons(s.agents[j]);
      assert j in s'.agents && s'.agents[j] == s.agents[j];
    }
    forall i | i in s'.agents
      ensures !PastPoisonTest(s'.agents[i])
    {
      assert i != id ==> i in s.agents && s'.agents[i] == s.agents[i];
    }
    hide Inv, OnlyPoisons, PastPoisonTest, AtPoisonTest;
  }

  lemma StepDead(s: State, a: Action, u: nat)
    requires Inv(s) && Dead(s, u)
    ensures Dead(Step(s, a), u)
  {
    if a.StorePoison? {
      StorePoisonDead(s, a.id, u);
    } else {
      assert a.id in s.agents && s.agents[a.id].Writer? ==> !s.agents[a.id].pc.Poisoned?;
      StepMoves(s, a);
      MovesDead(s, Step(s, a), a.id, u);
    }
    hide Step, Inv, Dead;
  }

  lemma {:induction false} DeadForever(s: State, more: seq<Action>, u: nat)
    requires Inv(s) && Dead(s, u)
    ensures Inv(Exec(s, more)) && Dead(Exec(s, more), u)
  {
    hide Step, Inv, Dead;
    if more != [] {
      var more' := more[..|more| - 1];
      DeadForever(s, more', u);
      StepKept(Exec(s, more'), more[|more| - 1]);
      StepDead(Exec(s, more'), more[|more| - 1], u);
    }
  }

  lemma DeadNeverWrites(s: State, u: nat, t: nat)
    requires Inv(s) && Dead(s, u) && u <= t + 1
    ensures !CanWrite(s, t)
  {
    hide Inv, Dead, Written, Step;
    forall more, v | t < v
      ensures Written(Exec(s, more), v) == []
    {
      DeadForever(s, more, u);
      DeadWritesNothing(Exec(s, more), u, v);
    }
  }

  // ----- the owner of the served ticket gets to write ----------------------

  /** Ticket `u` is served, the flag is clear, and nothing is written for it yet. */
  predicate Ready(s: State, u: nat) {
    !s.sh.poisoned && s.sh.wServing == u == |s.h.chunks| && s.h.cur == []
  }

  predicate OwnerAt(s: State, j: nat, u: nat, pc: WriterPc) {
    j in s.agents && s.agents[j].Writer? && s.agents[j].w == u && s.agents[j].pc == pc
  }

  lemma HeldWrites(s: State, j: nat, u: nat, t: nat)
    requires Ready(s, u) && t < u && j in s.agents && s.agents[j].Writer?
    requires s.agents[j].pc == Held(0) || s.agents[j].pc == DrainHeld(u, 0)
    ensures CanWrite(s, t)
  {
    FirstFieldWritten(s, j, u);
    hide Step, Written;
    assert Exec(Step(s, WriteField(j)), []) == Step(s, WriteField(j));
    CanWriteBefore(s, WriteField(j), t);
  }

  lemma FirstFieldWritten(s: State, j: nat, u: nat)
    requires Ready(s, u) && j in s.agents && s.agents[j].Writer?
    requires s.agents[j].pc == Held(0) || s.agents[j].pc == DrainHeld(u, 0)
    ensures Written(Step(s, WriteField(j)), u) != []
  {}

  lemma ClearWrites(s: State, j: nat, u: nat, t: nat)
    requires Ready(s, u) && t < u && OwnerAt(s, j, u, Clear)
    ensures CanWrite(s, t)
  {
    HeldWrites(Step(s, LoadServing(j)), j, u, t);
    CanWriteBefore(s, LoadServing(j), t);
    hide Step, CanWrite;
  }

  lemma AcquireWrites(s: State, j: nat, u: nat, t: nat)
    requires Ready(s, u) && t < u && OwnerAt(s, j, u, Acquire)
    ensures CanWrite(s, t)
  {
    ClearWrites(Step(s, LoadPoison(j)), j, u, t);
    CanWriteBefore(s, LoadPoison(j), t);
    hide Step, CanWrite;
  }

  lemma TurnWrites(s: State, j: nat, u: nat, t: nat)
    requires Ready(s, u) && t < u && (OwnerAt(s, j, u, Turn) || OwnerAt(s, j, u, Recheck))
    ensures CanWrite(s, t)
  {
    AcquireWrites(Step(s, LoadServing(j)), j, u, t);
    CanWriteBefore(s, LoadServing(j), t);
    hide Step, CanWrite;
  }

  lemma EnabledWrites(s: State, j: nat, u: nat, t: nat)
    requires Ready(s, u) && t < u && OwnerAt(s, j, u, Enabled)
    ensures CanWrite(s, t)
  {
    TurnWrites(Step(s, LoadPoison(j)), j, u, t);
    CanWriteBefore(s, LoadPoison(j), t);
    hide Step, CanWrite;
  }

  lemma LoadedWrites(s: State, j: nat, u: nat, t: nat, c: nat)
    requires Ready(s, u) && t < u && OwnerAt(s, j, u, Loaded(c)) && c !in s.sh.autoFailures
    ensures CanWrite(s, t)
  {
    TurnWrites(Step(s, DrainTake(j)), j, u, t);
    CanWriteBefore(s, DrainTake(j), t);
    hide Step, CanWrite;
  }

  lemma LoopWrites(s: State, j: nat, u: nat, t: nat)
    requires Ready(s, u) && t < u && OwnerAt(s, j, u, Loop) && u !in s.sh.autoFailures
    ensures CanWrite(s, t)
  {
    LoadedWrites(Step(s, DrainLoad(j)), j, u, t, u);
    CanWriteBefore(s, DrainLoad(j), t);
    hide Step, CanWrite;
  }

  lemma ParkedWrites(s: State, j: nat, u: nat, t: nat)
    requires Ready(s, u) && t < u && OwnerAt(s, j, u, Parked) && u !in s.sh.autoFailures
    ensures CanWrite(s, t)
  {
    LoopWrites(Step(s, Wake(j)), j, u, t);
    CanWriteBefore(s, Wake(j), t);
    hide Step, CanWrite;
  }

  /** A drainer that has removed the served ticket from the queue writes its failure. */
  lemma TookWrites(s: State, j: nat, u: nat, t: nat)
    requires Ready(s, u) && t < u && j in s.agents && s.agents[j].Writer? && s.agents[j].pc == Took(u)
    ensures CanWrite(s, t)
  {
    var x := Step(s, LoadPoison(j));
    assert x == Put(s, j, s.agents[j].(pc := TookClear(u)));
    HeldWrites(Step(x, LoadServing(j)), j, u, t);
    CanWriteBefore(x, LoadServing(j), t);
    CanWriteBefore(s, LoadPoison(j), t);
    hide Step, CanWrite;
  }

  /** A queued ticket: any agent at the top of the drain loop removes it and writes its failure. */
  lemma QueuedWrites(s: State, j: nat, u: nat, t: nat)
    requires Ready(s, u) && t < u && u in s.sh.autoFailures
    requires j in s.agents && s.agents[j].Writer? && s.agents[j].pc == Loop
    ensures CanWrite(s, t)
  {
    var x := Step(s, DrainLoad(j));
    assert x == Put(s, j, s.agents[j].(pc := Loaded(u)));
    TookWrites(Step(x, DrainTake(j)), j, u, t);
    CanWriteBefore(x, DrainTake(j), t);
    CanWriteBefore(s, DrainLoad(j), t);
    hide Step, CanWrite;
  }

  lemma PairingWrites(s: State, j: nat, u: nat, t: nat)
    requires Ready(s, u) && t < u && j in s.agents && s.agents[j].Pairing? && s.agents[j].w == u
    requires u !in s.sh.autoFailures
    ensures CanWrite(s, t)
  {
    LoopWrites(Step(s, FinishPair(j)), j, u, t);
    CanWriteBefore(s, FinishPair(j), t);
    hide Step, CanWrite;
  }

  lemma DecodedWrites(s: State, j: nat, u: nat, t: nat)
    requires Ready(s, u) && t < u && j in s.agents && s.agents[j].Decoded? && s.agents[j].w == u
    requires u !in s.sh.autoFailures
    ensures CanWrite(s, t)
  {
    LoopWrites(Step(s, Respond(j, Rejected)), j, u, t);
    CanWriteBefore(s, Respond(j, Rejected), t);
    hide Step, CanWrite;
  }

  lemma HandleWrites(s: State, j: nat, u: nat, t: nat)
    requires Ready(s, u) && t < u && j in s.agents && s.agents[j].Reader?
    requires s.agents[j].rjob.CallHeld? && s.agents[j].rjob.w == u && s.agents[j].rpc.RHeld?
    requires u !in s.sh.autoFailures
    ensures CanWrite(s, t)
  {
    DecodedWrites(Step(s, DecodeOk(j)), j, u, t);
    CanWriteBefore(s, DecodeOk(j), t);
    hide Step, CanWrite;
  }

  lemma FreshId(ids: set<nat>) returns (n: nat)
    ensures n !in ids
  {
    if ids == {} {
      n := 0;
    } else {
      var m :| m in ids;
      var k := FreshAbove(ids, m);
      n := k;
    }
  }

  lemma {:induction false} FreshAbove(ids: set<nat>, m: nat) returns (n: nat)
    ensures n >= m && n !in ids
    decreases |ids|
  {
    if m in ids {
      n := FreshAbove(ids - {m}, m + 1);
    } else {
      n := m;
    }
  }

  /** A newcomer takes a ticket; if that is `u` it writes, if `u` is queued it writes the failure. */
  lemma NewcomerWrites(s: State, u: nat, t: nat)
    requires Ready(s, u) && t < u && (u in s.sh.autoFailures || u == s.sh.wNext)
    ensures CanWrite(s, t)
  {
    var j := FreshId(s.agents.Keys);
    var x := Step(s, StartNotice(j, "", []));
    assert x.sh == s.sh.TakeWriter() && j in x.agents && x.agents[j] == Writer(s.sh.wNext, Notice("", []), Loop);
    if u in s.sh.autoFailures {
      QueuedWrites(x, j, u, t);
    } else {
      LoopWrites(x, j, u, t);
    }
    CanWriteBefore(s, StartNotice(j, "", []), t);
    hide Step, CanWrite;
  }

  /** Any owner of the served ticket that can do more than poison gets to write. */
  lemma OwnerWrites(s: State, j: nat, u: nat, t: nat)
    requires Inv(s) && Ready(s, u) && t < u && NobodyPastTest(s)
    requires j in s.agents && OwnsWriter(s.agents[j], u) && !OnlyPoisons(s.agents[j])
    ensures CanWrite(s, t)
  {
    var g := s.agents[j];
    assert AgentOk(s, g) && u !in s.sh.autoFailures;
    match g
    case Pairing(_, _, _) => PairingWrites(s, j, u, t);
    case Decoded(_, _) => DecodedWrites(s, j, u, t);
    case Reader(_, _, _) => HandleWrites(s, j, u, t);
    case Writer(w, _, pc) =>
      if pc.Took? {
        TookWrites(s, j, u, t);
      } else {
        WriterWrites(s, j, u, t);
      }
    hide Inv, CanWrite, NobodyPastTest;
  }

  lemma WriterWrites(s: State, j: nat, u: nat, t: nat)
    requires Inv(s) && Ready(s, u) && t < u && u !in s.sh.autoFailures
    requires j in s.agents && s.agents[j].Writer? && s.agents[j].w == u && !OnlyPoisons(s.agents[j])
    requires !PastPoisonTest(s.agents[j]) && !s.agents[j].pc.Took?
    ensures CanWrite(s, t)
  {
    match s.agents[j].pc
    case Loop => LoopWrites(s, j, u, t);
    case Loaded(c) =>
      assert AgentOk(s, s.agents[j]) && (c in s.sh.autoFailures ==> WriterOpen(s, c));
      LoadedWrites(s, j, u, t, c);
    case Turn => TurnWrites(s, j, u, t);
    case Enabled => EnabledWrites(s, j, u, t);
    case Recheck => TurnWrites(s, j, u, t);
    case Parked => ParkedWrites(s, j, u, t);
    case Acquire => AcquireWrites(s, j, u, t);
    hide Inv, CanWrite;
  }

  /** With the flag clear and nobody past the test, the served ticket, and with it anything
      later, can be written if and only if its owner can do more than poison the session. */
  lemma ServedCanWrite(s: State, u: nat, t: nat)
    requires Inv(s) && t + 1 == u == s.sh.wServing && !s.sh.poisoned && NobodyPastTest(s)
    ensures CanWrite(s, t) <==> !OwnerOnlyPoisons(s, u)
  {
    if OwnerOnlyPoisons(s, u) {
      DeadNeverWrites(s, u, t);
    } else {
      assert WireOk(s) && Ready(s, u);
      if u == s.sh.wNext || u in s.sh.autoFailures {
        NewcomerWrites(s, u, t);
      } else {
        assert WriterOwned(s, u);
        var j :| j in s.agents && OwnsWriter(s.agents[j], u);
        OwnerWrites(s, j, u, t);
      }
    }
    hide Inv, CanWrite, NobodyPastTest;
  }

  // ----- the window of a failing drain -------------------------------------

  /** The ticket behind the one that agent `id` drains is owned by `id` itself, by another
      agent whose drain has failed, or by a handle that is on its way to poison the session. */
  ghost predicate NextIsStuck(s: State, id: nat) {
    exists j :: j in s.agents && OwnsWriter(s.agents[j], s.sh.wServing + 1) && (j == id || OnlyPoisons(s.agents[j]))
  }

  /** What the failing call leaves: the next ticket served, the flag as it was, the agent about to poison. */
  lemma DrainFails(s: State, id: nat, torn: bool)
    requires Inv(s) && id in s.agents && s.agents[id].Writer? && s.agents[id].pc.DrainHeld?
    ensures var t := Step(s, WriteFails(id, torn));
            && t.sh == s.sh.ReleaseWriter() && s.sh.wServing in t.h.broken
            && t.agents == s.agents[id := s.agents[id].(pc := DrainBroken)]
            && NobodyPastTest(t)
  {
    hide NumbersOk, QueueOk, LockOk, NothingLost, WireOk, PairsOk, SoleReaderOwners;
    assert AgentOk(s, s.agents[id]);
    assert OwnsWriter(s.agents[id], s.sh.wServing);
    forall i | i in s.agents && i != id
      ensures !PastPoisonTest(s.agents[i])
    {
      assert AgentOk(s, s.agents[i]);
      assert !OwnsWriter(s.agents[i], s.sh.wServing);
    }
    hide Inv;
  }

  lemma StuckIsStuck(s: State, t: State, id: nat)
    requires Inv(s) && id in s.agents && s.agents[id].Writer? && s.agents[id].pc.DrainHeld?
    requires t.agents == s.agents[id := s.agents[id].(pc := DrainBroken)]
    ensures NextIsStuck(s, id) <==> OwnerOnlyPoisons(t, s.sh.wServing + 1)
  {
    assert AgentOk(s, s.agents[id]);
    var u := s.sh.wServing + 1;
    assert OwnsWriter(s.agents[id], u) <==> OwnsWriter(t.agents[id], u);
    if NextIsStuck(s, id) {
      var j :| j in s.agents && OwnsWriter(s.agents[j], u) && (j == id || OnlyPoisons(s.agents[j]));
      assert j in t.agents && OwnsWriter(t.agents[j], u) && OnlyPoisons(t.agents[j]);
    }
    if OwnerOnlyPoisons(t, u) {
      var j :| j in t.agents && OwnsWriter(t.agents[j], u) && OnlyPoisons(t.agents[j]);
      assert j in s.agents && OwnsWriter(s.agents[j], u) && (j == id || OnlyPoisons(s.agents[j]));
    }
    hide Inv;
  }

  /** The gap on the writer: when a write inside a drain fails, a later message can follow the
      failed one if and only if the session is not yet poisoned and the next ticket is not stuck. */
  lemma DrainWindow(input: seq<InMsg>, acts: seq<Action>, id: nat, torn: bool)
    requires var s := Run(input, acts);
             id in s.agents && s.agents[id].Writer? && s.agents[id].pc.DrainHeld?
    ensures var s := Run(input, acts); var t := Run(input, acts + [WriteFails(id, torn)]);
            && s.sh.wServing in t.h.broken
            && (CanWrite(t, s.sh.wServing) <==> !s.sh.poisoned && !NextIsStuck(s, id))
  {
    hide Run, Inv, CanWrite, NextIsStuck, OwnerOnlyPoisons, Step;
    var s := Run(input, acts);
    RunKept(input, acts);
    RunSnoc(input, acts, WriteFails(id, torn));
    var t := Step(s, WriteFails(id, torn));
    StepKept(s, WriteFails(id, torn));
    DrainFails(s, id, torn);
    if s.sh.poisoned {
      assert Dead(t, s.sh.wServing + 1);
      DeadNeverWrites(t, s.sh.wServing + 1, s.sh.wServing);
    } else {
      StuckIsStuck(s, t, id);
      ServedCanWrite(t, s.sh.wServing + 1, s.sh.wServing);
    }
  }

  // ----- entering the reader after a poison store --------------------------

  ghost predicate HoldsTicket(s: State, r: nat) {
    exists i :: i in s.agents && HoldsReader(s.agents[i]) && s.agents[i].r == r
  }

  /** In some continuation an agent holds the reader guard for ticket `r`. */
  ghost predicate CanEnter(s: State, r: nat) {
    exists more :: HoldsTicket(Exec(s, more), r)
  }

  lemma CanEnterBefore(s: State, a: Action, r: nat)
    requires CanEnter(Step(s, a), r)
    ensures CanEnter(s, r)
  {
    hide Step, HoldsTicket;
    var more :| HoldsTicket(Exec(Step(s, a), more), r);
    ExecCons(s, a, more);
  }

  predicate PastWith(a: Agent, r: nat) {
    PastReaderTest(a) && a.r == r
  }

  /** The owner of reader ticket `r` has read the poison flag as false, or holds the guard. */
  ghost predicate HasPassed(s: State, r: nat) {
    exists j :: j in s.agents && PastWith(s.agents[j], r)
  }

  /** ... and it is not agent `id`. */
  ghost predicate OtherHasPassed(s: State, id: nat, r: nat) {
    exists j :: j != id && j in s.agents && PastWith(s.agents[j], r)
  }

  /** How far an agent past the test is from giving the guard back. */
  function Rank(a: Agent): nat
    requires PastReaderTest(a)
  {
    match a.rpc
    case RClear => 6
    case RHeld => if a.rjob.HeaderRead? then 5 else 4
    case RBroken => 2
    case RPoisoned => 1
  }

  /** A way forward for an agent past the test. */
  function Onward(a: Agent, id: nat): Action
    requires PastReaderTest(a)
  {
    match a.rpc
    case RClear => LoadServing(id)
    case RHeld =>
      (match a.rjob
       case Response(_) => ReadFails(id)
       case Accepting => AcceptFails(id)
       case HeaderRead(_, _) => TakeReply(id)
       case _ => DropIncoming(id))
    case RBroken => StorePoison(id)
    case RPoisoned => DropGuard(id)
  }

  /** It comes closer, or it is gone and the next ticket is served; nobody else moves. */
  lemma GoesOn(s: State, id: nat)
    requires id in s.agents && PastReaderTest(s.agents[id]) && AgentOk(s, s.agents[id])
    requires s.agents[id].r == s.sh.rServing
    ensures ComesCloser(s, Step(s, Onward(s.agents[id], id)), id)
  {
    if s.agents[id].rpc.RHeld? {
      HolderGoesOn(s, id);
      hide AgentOk, Onward, ComesCloser, Step;
    } else {
      hide DoReadFails, DoAcceptFails, DoTakeReply, DoDropIncoming;
    }
  }

  ghost predicate ComesCloser(s: State, s': State, id: nat)
    requires id in s.agents && PastReaderTest(s.agents[id])
  {
    && OnlyMoves(s, s', id)
    && if id in s'.agents then
         && PastWith(s'.agents[id], s.sh.rServing) && s'.sh.rServing == s.sh.rServing
         && HoldsReader(s'.agents[id]) && Rank(s'.agents[id]) < Rank(s.agents[id])
       else HoldsReader(s.agents[id]) && s'.sh.rServing == s.sh.rServing + 1
  }

  lemma HolderGoesOn(s: State, id: nat)
    requires id in s.agents && PastReaderTest(s.agents[id]) && AgentOk(s, s.agents[id])
    requires s.agents[id].r == s.sh.rServing && s.agents[id].rpc.RHeld?
    ensures ComesCloser(s, Step(s, Onward(s.agents[id], id)), id)
  {
    hide DoLoadServing, DoStorePoison, DoDropGuard;
    match s.agents[id].rjob {
      case Response(_) => hide DoAcceptFails, DoTakeReply, DoDropIncoming;
      case Accepting => hide DoReadFails, DoTakeReply, DoDropIncoming;
      case HeaderRead(_, _) => hide DoReadFails, DoAcceptFails, DoDropIncoming;
      case _ => hide DoReadFails, DoAcceptFails, DoTakeReply;
    }
  }

  lemma OthersPassed(s: State, s': State, id: nat, u: nat)
    requires OnlyMoves(s, s', id) && OtherHasPassed(s, id, u)
    ensures OtherHasPassed(s', id, u)
  {
    var j :| j != id && j in s.agents && PastWith(s.agents[j], u);
    assert j in s'.agents && s'.agents[j] == s.agents[j];
  }

  /** If everybody up to ticket `r` is past the test, the guard is passed on to that ticket. */
  lemma {:induction false} PassesOn(s: State, id: nat, r: nat)
    requires Inv(s) && id in s.agents && PastWith(s.agents[id], s.sh.rServing) && s.sh.rServing <= r
    requires forall u :: s.sh.rServing < u <= r ==> OtherHasPassed(s, id, u)
    ensures CanEnter(s, r)
    decreases r - s.sh.rServing, Rank(s.agents[id])
  {
    hide CanEnter, Inv, OtherHasPassed, Onward, Step;
    if HoldsReader(s.agents[id]) && r == s.sh.rServing {
      EntersNow(s, id, r);
    } else {
      var a := Onward(s.agents[id], id);
      var s' := Step(s, a);
      AgentIsOk(s, id);
      GoesOn(s, id);
      StepKept(s, a);
      forall u | s.sh.rServing < u <= r
        ensures OtherHasPassed(s', id, u)
      {
        OthersPassed(s, s', id, u);
      }
      if id in s'.agents {
        PassesOn(s', id, r);
      } else {
        var j := NextPassed(s', id, r);
        PassesOn(s', j, r);
      }
      CanEnterBefore(s, a, r);
    }
  }

  lemma AgentIsOk(s: State, id: nat)
    requires Inv(s) && id in s.agents
    ensures AgentOk(s, s.agents[id])
  {}

  lemma EntersNow(s: State, id: nat, r: nat)
    requires id in s.agents && HoldsReader(s.agents[id]) && s.agents[id].r == r
    ensures CanEnter(s, r)
  {
    assert Exec(s, []) == s;
    assert HoldsTicket(Exec(s, []), r);
  }

  lemma NextPassed(s: State, gone: nat, r: nat) returns (j: nat)
    requires gone !in s.agents && s.sh.rServing <= r
    requires forall u :: s.sh.rServing <= u <= r ==> OtherHasPassed(s, gone, u)
    ensures j in s.agents && PastWith(s.agents[j], s.sh.rServing)
    ensures forall u :: s.sh.rServing < u <= r ==> OtherHasPassed(s, j, u)
  {
    assert OtherHasPassed(s, gone, s.sh.rServing);
    j :| j != gone && j in s.agents && PastWith(s.agents[j], s.sh.rServing);
    forall u | s.sh.rServing < u <= r
      ensures OtherHasPassed(s, j, u)
    {
      assert OtherHasPassed(s, gone, u);
      var k :| k != gone && k in s.agents && PastWith(s.agents[k], u);
      assert k != j;
    }
  }

  lemma EveryonePassed(s: State, r: nat)
    requires Inv(s) && s.sh.rServing <= r
    requires forall u :: s.sh.rServing <= u <= r ==> HasPassed(s, u)
    ensures CanEnter(s, r)
  {
    assert HasPassed(s, s.sh.rServing);
    var id :| id in s.agents && PastWith(s.agents[id], s.sh.rServing);
    forall u | s.sh.rServing < u <= r
      ensures OtherHasPassed(s, id, u)
    {
      assert HasPassed(s, u);
      var j :| j in s.agents && PastWith(s.agents[j], u);
      assert j != id;
    }
    PassesOn(s, id, r);
    hide Inv, CanEnter;
  }

  /** A ticket that holds the guard after the first store: everybody up to it was past the test then. */
  lemma EnteredHadPassed(s: State, t: State, r: nat, u: nat)
    requires Inv(t) && PoisonOk(t) && t.h.mark == Some(PoisonMark(s.sh.wServing, s.sh.rServing, Grace(s.agents)))
    requires HoldsTicket(t, r) && s.sh.rServing <= u <= r
    ensures HasPassed(s, u)
  {
    HeldIsServed(t);
    var i :| i in t.agents && HoldsReader(t.agents[i]) && t.agents[i].r == r;
    assert PastReaderTest(t.agents[i]);
    assert u in Grace(s.agents);
    var j :| j in s.agents && s.agents[j].Reader? && !s.agents[j].rpc.RAcquire? && s.agents[j].r == u;
    assert PastWith(s.agents[j], u);
    hide Inv;
  }

  lemma StoredPassed(s: State, id: nat, u: nat)
    requires id in s.agents
    ensures HasPassed(DoStorePoison(s, id), u) <==> HasPassed(s, u)
  {
    var t := DoStorePoison(s, id);
    ReadersStay(s, t, id);
    if HasPassed(s, u) {
      var j :| j in s.agents && PastWith(s.agents[j], u);
      assert j in t.agents && PastWith(t.agents[j], u);
    }
    if HasPassed(t, u) {
      var j :| j in t.agents && PastWith(t.agents[j], u);
      assert j in s.agents && PastWith(s.agents[j], u);
    }
    hide PastWith;
  }

  /** The gap on the reader: after the first poison store, by whichever agent, a ticket that is
      not yet retired can hold the guard if and only if the owners of all tickets from the
      served one up to it had by then read the poison flag as false. */
  lemma ReaderWindow(input: seq<InMsg>, acts: seq<Action>, id: nat, r: nat)
    requires var s := Run(input, acts);
             !s.sh.poisoned && Step(s, StorePoison(id)).sh.poisoned && s.sh.rServing <= r
    ensures var s := Run(input, acts);
            CanEnter(Run(input, acts + [StorePoison(id)]), r)
            <==> forall u :: s.sh.rServing <= u <= r ==> HasPassed(s, u)
  {
    hide Run, Inv, CanEnter, HasPassed, PoisonOk;
    var s := Run(input, acts);
    var acts' := acts + [StorePoison(id)];
    RunSnoc(input, acts, StorePoison(id));
    var t := Step(s, StorePoison(id));
    RunKept(input, acts');
    PoisonRun(input, acts);
    FirstMark(s, id);
    if forall u :: s.sh.rServing <= u <= r ==> HasPassed(s, u) {
      forall u | t.sh.rServing <= u <= r
        ensures HasPassed(t, u)
      {
        StoredPassed(s, id, u);
      }
      EveryonePassed(t, r);
    }
    if CanEnter(t, r) {
      WindowNeeded(input, acts', s, t, r);
    }
    hide Step;
  }

  lemma FirstMark(s: State, id: nat)
    requires PoisonOk(s) && !s.sh.poisoned && Step(s, StorePoison(id)).sh.poisoned
    ensures var t := Step(s, StorePoison(id));
            && id in s.agents && t == DoStorePoison(s, id) && t.sh.rServing == s.sh.rServing
            && t.h.mark == Some(PoisonMark(s.sh.wServing, s.sh.rServing, Grace(s.agents)))
  {}

  lemma WindowNeeded(input: seq<InMsg>, acts: seq<Action>, s: State, t: State, r: nat)
    requires t == Run(input, acts) && CanEnter(t, r) && t.sh.poisoned
    requires t.h.mark == Some(PoisonMark(s.sh.wServing, s.sh.rServing, Grace(s.agents)))
    ensures forall u :: s.sh.rServing <= u <= r ==> HasPassed(s, u)
  {
    hide Run, Inv, HasPassed, PoisonOk, Step, HoldsTicket;
    var more :| HoldsTicket(Exec(t, more), r);
    RunAppend(input, acts, more);
    RunKept(input, acts + more);
    PoisonRun(input, acts + more);
    PoisonIsForever(input, acts, more);
    forall u | s.sh.rServing <= u <= r
      ensures HasPassed(s, u)
    {
      EnteredHadPassed(s, Exec(t, more), r, u);
    }
  }

  // ----- a reader slips in -------------------------------------------------

  /** Agent 1 has read the flag when agent 0 fails to read a header, poisons and gives the guard on. */
  const SLIP: seq<Action> := [
    StartAccept(0), StartAccept(1), LoadPoison(0), LoadServing(0), LoadPoison(1),
    AcceptFails(0), StorePoison(0), DropGuard(0), LoadServing(1)]

  lemma SlipStep(n: nat)
    requires n < |SLIP|
    ensures Run([], SLIP[..n + 1]) == Step(Run([], SLIP[..n]), SLIP[n])
  {
    assert SLIP[..n + 1][..n] == SLIP[..n];
  }

  lemma BothWait()
    ensures var s := Run([], SLIP[..2]);
            s.sh == FRESH.(rNext := 2) && s.h.mark == None
            && s.agents == map[0 := Reader(0, Accepting, RAcquire), 1 := Reader(1, Accepting, RAcquire)]
  {
    assert SLIP[..0] == [];
    SlipStep(0);
    SlipStep(1);
  }

  lemma BothPassed()
    ensures var s := Run([], SLIP[..5]);
            s.sh == FRESH.(rNext := 2) && s.h.mark == None
            && s.agents == map[0 := Reader(0, Accepting, RHeld), 1 := Reader(1, Accepting, RClear)]
  {
    hide Run;
    BothWait();
    SlipStep(2);
    SlipStep(3);
    SlipStep(4);
  }

  lemma OnePoisons()
    ensures var s := Run([], SLIP[..7]);
            s.sh == FRESH.(rNext := 2, poisoned := true) && s.h.mark.Some? && s.h.mark.value.rServing == 0
            && s.agents == map[0 := Reader(0, Accepting, RPoisoned), 1 := Reader(1, Accepting, RClear)]
  {
    hide Run;
    BothPassed();
    SlipStep(5);
    SlipStep(6);
  }

  /** So with the two loads of `acquire` apart a second ticket does get the reader guard after the store. */
  lemma ReaderSlipsIn()
    ensures var s := Run([], SLIP); s.sh.poisoned && s.h.mark.Some? && s.h.mark.value.rServing == 0 && HoldsTicket(s, 1)
  {
    hide Run;
    OnePoisons();
    SlipStep(7);
    SlipStep(8);
    assert SLIP[..9] == SLIP;
    assert HoldsReader(Run([], SLIP).agents[1]);
  }
}
