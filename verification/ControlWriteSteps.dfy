/** The steps that take tickets, write, retire tickets or decide replies. */
module ControlWriteSteps {
  import opened Prelude
  import opened ControlStream
  import opened ControlInvariant
  import opened ControlSteps
  import opened ControlTestSteps

  // ----- tickets -----------------------------------------------------------

  /** A new agent takes a writer ticket. */
  lemma WriterTaken(s: State, s': State, id: nat, x: Purpose, a: Agent)
    requires Inv(s) && id !in s.agents && !x.ReplyTo?
    requires s' == Put(Take(s, x), id, a).(lock := s'.lock)
    requires forall u: nat :: OwnsWriter(a, u) == (u == s.sh.wNext) && !OwnsReader(a, u)
    requires AgentOk(s', a)
    ensures NumbersOk(s') && AgentsOk(s') && QueueOk(s') && NothingLost(s')
    ensures Monotone(s, s', id)
  {
    NumbersTaken(s, s', x);
    forall u: nat
      ensures Owned(s', id, u) == (u == s.sh.wNext) && !OwnedR(s', id, u)
    {
      assert OwnsWriter(a, u) == (u == s.sh.wNext);
    }
    TicketsKept(s, s', id);
  }

  lemma StartRequestKept(s: State, id: nat, name: string, data: seq<int>)
    requires Inv(s)
    ensures Inv(Step(s, StartRequest(id, name, data)))
  {
    var s' := Step(s, StartRequest(id, name, data));
    if s' != s {
      var x := OutRequest(name, data);
      assert s'.h.purpose[s.sh.wNext] == x;
      WriterTaken(s, s', id, x, s'.agents[id]);
      PurposeAppended(s.h.purpose, x);
      WireKept(s, s', id);
      assert HalfPair(s) == [];
      assert HalfPair(s') == [s.sh.wNext];
    }
  }

  lemma {:induction false} RequestTicketsBounded(p: seq<Purpose>)
    ensures forall i :: 0 <= i < |RequestTickets(p)| ==> RequestTickets(p)[i] < |p|
    ensures forall i, j :: 0 <= i < j < |RequestTickets(p)| ==> RequestTickets(p)[i] < RequestTickets(p)[j]
  {
    if p != [] { RequestTicketsBounded(p[..|p| - 1]); }
  }

  lemma PairAppended(s: State, s': State, w: nat, r: nat)
    requires PairsOk(s) && HalfPair(s) == [w] && r == s.sh.rNext && s'.sh.rNext == r + 1
    requires s'.h.purpose == s.h.purpose && s'.h.pairs == s.h.pairs + [(w, r)] && HalfPair(s') == []
    ensures PairsOk(s')
  {
    RequestTicketsBounded(s.h.purpose);
    var ts := RequestTickets(s.h.purpose);
    assert WriteTickets(s'.h.pairs) == WriteTickets(s.h.pairs) + [w];
    assert ts == WriteTickets(s.h.pairs) + [w];
    forall i | 0 <= i < |s.h.pairs| ensures s.h.pairs[i].0 < w {
      assert ts[i] == s.h.pairs[i].0 && ts[|s.h.pairs|] == w;
    }
  }

  lemma FinishPairTransfer(s: State, id: nat)
    requires Inv(s) && id in s.agents && DoFinishPair(s, id) != s
    ensures var s' := DoFinishPair(s, id); Monotone(s, s', id) && Transfer(s, s', id)
    ensures var s' := DoFinishPair(s, id); id in s'.agents && AgentOk(s', s'.agents[id])
  {
    hide WireOk, NothingLost, PairsOk, SoleWriterOwners, SoleReaderOwners;
    var s' := DoFinishPair(s, id);
    var w, r := s.agents[id].w, s.sh.rNext;
    assert AgentOk(s, s.agents[id]);
    assert s'.h.pairs[|s.h.pairs|] == (w, r);
    assert OwnsReader(s'.agents[id], r);
  }

  lemma FinishPairKept(s: State, id: nat)
    requires Inv(s) && id in s.agents
    ensures Inv(DoFinishPair(s, id))
  {
    var s' := DoFinishPair(s, id);
    if s' != s {
      FinishPairTransfer(s, id);
      NumbersKept(s, s', id);
      TicketsKept(s, s', id);
      WireKept(s, s', id);
      PairAppended(s, s', s.agents[id].w, s.sh.rNext);
      hide WireOk, NothingLost, QueueOk, NumbersOk, PairsOk, AgentsOk, Monotone, Transfer;
    }
  }

  lemma StartNoticeKept(s: State, id: nat, name: string, data: seq<int>)
    requires Inv(s)
    ensures Inv(Step(s, StartNotice(id, name, data)))
  {
    var s' := Step(s, StartNotice(id, name, data));
    if s' != s {
      var x := OutNotice(name, data);
      assert s'.h.purpose[s.sh.wNext] == x;
      WriterTaken(s, s', id, x, s'.agents[id]);
      PurposeAppended(s.h.purpose, x);
      WireKept(s, s', id);
      PairsKept(s, s');
    }
  }

  lemma StartAcceptKept(s: State, id: nat)
    requires Inv(s)
    ensures Inv(Step(s, StartAccept(id)))
  {
    var s' := Step(s, StartAccept(id));
    if s' != s {
      assert OwnsReader(s'.agents[id], s.sh.rNext);
      NumbersKept(s, s', id);
      TicketsKept(s, s', id);
      WireKept(s, s', id);
      PairsKept(s, s');
    }
  }

  // ----- writing -----------------------------------------------------------

  lemma DrainBrokenStays(s: State, s': State, id: nat)
    requires Monotone(s, s', id)
    requires id in s.agents && s.agents[id].Writer? ==> !s.agents[id].pc.DrainBroken?
    ensures SomeDrainBroken(s) ==> SomeDrainBroken(s')
  {
    if SomeDrainBroken(s) {
      var i :| i in s.agents && s.agents[i].Writer? && s.agents[i].pc.DrainBroken?;
      assert i in s'.agents && s'.agents[i].Writer? && s'.agents[i].pc.DrainBroken?;
    }
  }

  lemma Emitted(s: State, s': State, id: nat, f: Field)
    requires WireOk(s) && NumbersOk(s) && Monotone(s, s', id)
    requires s'.h == Emit(s, f).h && s'.sh == s.sh
    requires id in s'.agents && HoldsWriter(s'.agents[id])
    requires id in s.agents && HoldsWriter(s.agents[id])
    ensures WireOk(s')
  {
    WroteAllKept(s, s', id);
    DrainBrokenStays(s, s', id);
  }

  lemma EmitKept(s: State, s': State, id: nat, f: Field)
    requires Inv(s) && id in s.agents && HoldsWriter(s.agents[id])
    requires id in s'.agents && HoldsWriter(s'.agents[id])
    requires s' == Emit(s, f).(agents := s.agents[id := s'.agents[id]])
    requires AgentOk(s', s'.agents[id])
    requires forall u: nat :: SameOwnership(s'.agents[id], s.agents[id], u)
    requires Owned(s, id, s.sh.wServing)
    ensures Inv(s')
  {
    StaysPut(s, s', id);
    NumbersKept(s, s', id);
    TicketsKept(s, s', id);
    Emitted(s, s', id, f);
    PairsKept(s, s');
    hide AgentsOk, QueueOk, NothingLost, NumbersOk, PairsOk, WireOk, Monotone;
  }

  lemma WriteFieldKept(s: State, id: nat)
    requires Inv(s) && id in s.agents
    ensures Inv(DoWriteField(s, id))
  {
    hide WireOk, NothingLost, QueueOk, NumbersOk, PairsOk, LockOk, SoleWriterOwners, SoleReaderOwners;
    var s' := DoWriteField(s, id);
    if s' != s {
      var g := s.agents[id];
      assert AgentOk(s, g);
      assert Owned(s, id, s.sh.wServing);
      assert forall u: nat :: SameOwnership(s'.agents[id], g, u);
      if g.pc.Held? { EmitKept(s, s', id, Message(g.job)[g.pc.n]); }
      else { EmitKept(s, s', id, FAILURE[g.pc.n]); }
    }
  }

  /** A writer guard drops: the served ticket is retired. */
  lemma Released(s: State, s': State, id: nat, failed: bool)
    requires Inv(s) && id in s.agents && Monotone(s, s', id)
    requires Owned(s, id, s.sh.wServing)
    requires s'.sh == s.sh.ReleaseWriter()
    requires s'.h.chunks == s.h.chunks + [s.h.cur] && s'.h.cur == [] && s'.h.wire == s.h.wire
    requires s'.h.broken == s.h.broken + if failed then {s.sh.wServing} else {}
    requires s'.h.purpose == s.h.purpose && s'.h.decision == s.h.decision
    requires if failed then WrotePart(s'.h, s.sh.wServing) else WroteAll(s'.h, s.sh.wServing)
    requires failed ==> s'.sh.poisoned || SomeDrainBroken(s')
    requires s.agents[id].Writer? && !s.agents[id].pc.DrainBroken?
    ensures WireOk(s')
  {
    hide Inv, Monotone, SomeDrainBroken, SomeGuard, WroteAll, WrotePart, Owned;
    ReleasedFacts(s, s', id, failed);
    FlattenSnoc(s.h.chunks, s.h.cur);
  }

  /** The parts of WireOk, for the tickets retired before and for the one retired now. */
  lemma ReleasedFacts(s: State, s': State, id: nat, failed: bool)
    requires Inv(s) && id in s.agents && Monotone(s, s', id)
    requires Owned(s, id, s.sh.wServing)
    requires s'.h.chunks == s.h.chunks + [s.h.cur] && s'.h.purpose == s.h.purpose
    requires s'.h.broken == s.h.broken + if failed then {s.sh.wServing} else {}
    requires failed ==> s'.sh.poisoned || SomeDrainBroken(s')
    requires s.agents[id].Writer? && !s.agents[id].pc.DrainBroken?
    ensures |s.h.chunks| == s.sh.wServing < |s'.h.purpose|
    ensures s.h.wire == Flatten(s.h.chunks) + s.h.cur
    ensures forall u: nat :: u < |s.h.chunks| ==> if u in s'.h.broken then WrotePart(s'.h, u) else WroteAll(s'.h, u)
    ensures forall u :: u in s.h.broken ==> u < s.sh.wServing
    ensures s'.h.broken == {} || s'.sh.poisoned || SomeDrainBroken(s')
  {
    assert AgentOk(s, s.agents[id]);
    OwnedIsOpen(s, s.agents[id], s.sh.wServing);
    WroteAllKept(s, s', id);
    DrainBrokenStays(s, s', id);
    hide AgentsOk, AgentOk, NothingLost, QueueOk, PairsOk, LockOk, SomeDrainBroken, WroteAll, WrotePart, Owned;
  }

  lemma FinishWire(s: State, id: nat)
    requires Inv(s) && id in s.agents && DoFinish(s, id) != s
    requires Monotone(s, DoFinish(s, id), id)
    ensures WireOk(DoFinish(s, id))
  {
    var g := s.agents[id];
    assert AgentOk(s, g);
    assert Owned(s, id, s.sh.wServing);
    assert s.h.cur == if g.pc.Held? then Message(g.job) else FAILURE;
    Released(s, DoFinish(s, id), id, false);
  }

  /** What a released writer guard leaves alone. */
  lemma FinishRest(s: State, s': State, id: nat)
    requires PairsOk(s) && LockOk(s) && Monotone(s, s', id)
    requires s' == s.(sh := s.sh.ReleaseWriter(), agents := s'.agents, h := s'.h)
    requires s'.h == s.h.(chunks := s'.h.chunks, cur := [], broken := s'.h.broken)
    requires !IsPairing(s, id) && !IsPairing(s', id)
    ensures LockOk(s') && PairsOk(s')
  {
    LockKept(s, s', id);
    PairsKept(s, s');
  }

  lemma FinishKept(s: State, id: nat)
    requires Inv(s) && id in s.agents
    ensures Inv(DoFinish(s, id))
  {
    var s' := DoFinish(s, id);
    if s' != s {
      FinishTickets(s, id);
      FinishWire(s, id);
      FinishRest(s, s', id);
    }
  }

  /** What dropping a guard does to tickets. */
  lemma FinishTransfer(s: State, id: nat)
    requires Inv(s) && id in s.agents && DoFinish(s, id) != s
    ensures Monotone(s, DoFinish(s, id), id) && Transfer(s, DoFinish(s, id), id)
  {
    var s' := DoFinish(s, id);
    var g := s.agents[id];
    assert AgentOk(s, g);
    assert OwnsWriter(g, s.sh.wServing);
    forall u: nat
      ensures Owned(s', id, u) ==> Owned(s, id, u)
      ensures OwnedR(s', id, u) == OwnedR(s, id, u)
      ensures Owned(s, id, u) ==> Owned(s', id, u) || u == s.sh.wServing
    {}
  }

  lemma FinishTickets(s: State, id: nat)
    requires Inv(s) && id in s.agents && DoFinish(s, id) != s
    ensures Monotone(s, DoFinish(s, id), id) && NumbersOk(DoFinish(s, id))
    ensures AgentsOk(DoFinish(s, id)) && QueueOk(DoFinish(s, id)) && NothingLost(DoFinish(s, id))
  {
    hide NothingLost, QueueOk, PairsOk, WireOk, LockOk, SoleWriterOwners, SoleReaderOwners;
    var s' := DoFinish(s, id);
    FinishTransfer(s, id);
    assert AgentOk(s, s.agents[id]);
    NumbersKept(s, s', id);
    TicketsKept(s, s', id);
  }

  lemma DrainFailsTickets(s: State, s': State, id: nat)
    requires Inv(s) && id in s.agents && s.agents[id].Writer? && s.agents[id].pc.DrainHeld?
    requires s'.agents == s.agents[id := s.agents[id].(pc := DrainBroken)] && s'.lock == s.lock
    requires s'.sh == s.sh.ReleaseWriter()
    requires s'.h.purpose == s.h.purpose && s'.h.pairs == s.h.pairs && s'.h.decision == s.h.decision
    ensures Monotone(s, s', id) && NumbersOk(s')
    ensures AgentsOk(s') && QueueOk(s') && NothingLost(s')
  {
    var g := s.agents[id];
    assert AgentOk(s, g);
    assert OwnsWriter(g, s.sh.wServing);
    forall u: nat
      ensures Owned(s', id, u) ==> Owned(s, id, u)
      ensures OwnedR(s', id, u) == OwnedR(s, id, u)
      ensures Owned(s, id, u) ==> Owned(s', id, u) || u == s.sh.wServing
    {}
    NumbersKept(s, s', id);
    TicketsKept(s, s', id);
  }

  lemma DrainFailsWire(s: State, s': State, id: nat, last: seq<Field>)
    requires NumbersOk(s) && WireOk(s) && Monotone(s, s', id) && s.sh.wServing < s.sh.wNext
    requires s'.sh.wServing == s.sh.wServing + 1
    requires s'.h.chunks == s.h.chunks + [s.h.cur + last] && s'.h.cur == []
    requires s'.h.wire == s.h.wire + last && s'.h.broken == s.h.broken + {s.sh.wServing}
    requires SomeDrainBroken(s')
    requires IsDropped(s, s.sh.wServing) && IsPart(s.h.cur + last, FAILURE)
    requires s'.h.purpose == s.h.purpose && s'.h.decision == s.h.decision
    ensures WireOk(s')
  {
    hide SomeDrainBroken, SomeGuard, IsPart, Monotone;
    WroteAllKept(s, s', id);
    FlattenSnoc(s.h.chunks, s.h.cur + last);
    Regroup(Flatten(s.h.chunks), s.h.cur, last);
    assert WrotePart(s'.h, s.sh.wServing);
    hide WroteAll, WrotePart, NumbersOk, IsDropped;
  }

  /** What the failing call of a drain leaves behind: the failure so far, perhaps torn. */
  lemma DrainFailsDebris(s: State, id: nat, torn: bool) returns (last: seq<Field>)
    requires Inv(s) && id in s.agents && s.agents[id].Writer? && s.agents[id].pc.DrainHeld?
    ensures var s' := DoWriteFails(s, id, torn);
            && s'.h.chunks == s.h.chunks + [s.h.cur + last] && s'.h.wire == s.h.wire + last && s'.h.cur == []
            && s'.h.broken == s.h.broken + {s.sh.wServing}
            && id in s'.agents && s'.agents[id].Writer? && s'.agents[id].pc.DrainBroken?
    ensures IsPart(s.h.cur + last, FAILURE) && IsDropped(s, s.sh.wServing) && s.sh.wServing < s.sh.wNext
  {
    hide NumbersOk, QueueOk, LockOk, NothingLost, WireOk, PairsOk, SoleWriterOwners, SoleReaderOwners, IsPart;
    assert AgentOk(s, s.agents[id]);
    var n := s.agents[id].pc.n;
    last := if torn && n < |FAILURE| then [Torn] else [];
    assert s.h.cur + [] == s.h.cur && s.h.wire + [] == s.h.wire;
    DebrisIsPart(FAILURE, n, last);
  }

  lemma DebrisIsPart(m: seq<Field>, n: nat, last: seq<Field>)
    requires n <= |m| && (last == [] || (n < |m| && last == [Torn]))
    ensures IsPart(m[..n] + last, m)
  {
    assert (m[..n] + [Torn])[..n] == m[..n] && m[..n] + [] == m[..n];
  }

  lemma DrainWriteFailsKept(s: State, id: nat, torn: bool)
    requires Inv(s) && id in s.agents && s.agents[id].Writer? && s.agents[id].pc.DrainHeld?
    ensures Inv(DoWriteFails(s, id, torn))
  {
    var s' := DoWriteFails(s, id, torn);
    var last := DrainFailsDebris(s, id, torn);
    DrainFailsTickets(s, s', id);
    DrainFailsWire(s, s', id, last);
    LockKept(s, s', id);
    PairsKept(s, s');
    hide NothingLost, QueueOk, NumbersOk, PairsOk, WireOk, AgentsOk, Monotone, IsPart;
  }

  /** What the failing call of a message leaves behind is a part of it. */
  lemma HeldFailsPart(s: State, id: nat, torn: bool)
    requires id in s.agents && s.agents[id].Writer? && s.agents[id].pc.Held? && AgentOk(s, s.agents[id])
    ensures var s' := DoWriteFails(s, id, torn); AgentOk(s', s'.agents[id])
  {
    hide IsPart, Message;
    var g := s.agents[id];
    var last := if torn && g.pc.n < |Message(g.job)| then [Torn] else [];
    assert s.h.cur + [] == s.h.cur;
    DebrisIsPart(Message(g.job), g.pc.n, last);
  }

  lemma HeldWriteFailsKept(s: State, id: nat, torn: bool)
    requires Inv(s) && id in s.agents && s.agents[id].Writer? && s.agents[id].pc.Held?
    ensures Inv(DoWriteFails(s, id, torn))
  {
    hide WireOk, NothingLost, QueueOk, NumbersOk, PairsOk, LockOk, SoleWriterOwners, SoleReaderOwners, Message;
    var s' := DoWriteFails(s, id, torn);
    var g := s.agents[id];
    assert AgentOk(s, g) && Owned(s, id, s.sh.wServing);
    HeldFailsPart(s, id, torn);
    hide AgentOk;
    assert forall u: nat :: SameOwnership(s'.agents[id], g, u);
    if torn && g.pc.n < |Message(g.job)| {
      hide Inv;
      EmitKept(s, s', id, Torn);
    } else {
      hide Inv;
      QuietKept(s, s', id);
    }
  }

  lemma WriteFailsKept(s: State, id: nat, torn: bool)
    requires Inv(s) && id in s.agents
    ensures Inv(DoWriteFails(s, id, torn))
  {
    hide Inv;
    if s.agents[id].Writer? && s.agents[id].pc.Held? {
      HeldWriteFailsKept(s, id, torn);
    } else if s.agents[id].Writer? && s.agents[id].pc.DrainHeld? {
      DrainWriteFailsKept(s, id, torn);
    }
  }

  /** The poison store of an agent that still holds its guard. */
  lemma HolderPoisons(s: State, id: nat, g': Agent)
    requires Inv(s) && id in s.agents
    requires (s.agents[id].Writer? && s.agents[id].pc.Broken? && g' == s.agents[id].(pc := Poisoned))
          || (s.agents[id].Reader? && s.agents[id].rpc.RBroken? && g' == s.agents[id].(rpc := RPoisoned))
    ensures Inv(Put(Poison(s), id, g'))
  {
    var s' := Put(Poison(s), id, g');
    assert AgentOk(s, s.agents[id]);
    assert forall u: nat :: SameOwnership(s'.agents[id], s.agents[id], u);
    StaysPut(s, s', id);
    NumbersKept(s, s', id);
    TicketsKept(s, s', id);
    WireKept(s, s', id);
    PairsKept(s, s');
    hide NothingLost, QueueOk, NumbersOk, PairsOk, WireOk, AgentsOk, Monotone;
  }

  /** The late poison store of a drain that failed; the agent gives up. */
  lemma DrainPoisons(s: State, id: nat)
    requires Inv(s) && id in s.agents && s.agents[id].Writer? && s.agents[id].pc.DrainBroken?
    ensures Inv(Remove(Poison(s), id))
  {
    hide QueueOk, PairsOk, WireOk, SoleWriterOwners, SoleReaderOwners;
    var s' := Remove(Poison(s), id);
    NumbersKept(s, s', id);
    TicketsKept(s, s', id);
    WireKept(s, s', id);
    PairsKept(s, s');
  }

  lemma StorePoisonKept(s: State, id: nat)
    requires Inv(s) && id in s.agents
    ensures Inv(DoStorePoison(s, id))
  {
    match s.agents[id]
    case Writer(w, job, Broken) => HolderPoisons(s, id, Writer(w, job, Poisoned));
    case Writer(w, job, DrainBroken) => DrainPoisons(s, id);
    case Reader(r, job, RBroken) => HolderPoisons(s, id, Reader(r, job, RPoisoned));
    case _ =>
  }

  lemma DropWriterTickets(s: State, id: nat)
    requires Inv(s) && id in s.agents && s.agents[id].Writer? && s.agents[id].pc.Poisoned?
    ensures var s' := DoDropGuard(s, id);
            Monotone(s, s', id) && NumbersOk(s') && AgentsOk(s') && QueueOk(s') && NothingLost(s')
  {
    hide WireOk, PairsOk, LockOk, IsPart, Message;
    var s' := DoDropGuard(s, id);
    assert AgentOk(s, s.agents[id]);
    assert Owned(s, id, s.sh.wServing);
    NumbersKept(s, s', id);
    TicketsKept(s, s', id);
    hide Inv, AgentsOk, QueueOk, NothingLost, NumbersOk, Monotone;
  }

  lemma DropWriterKept(s: State, id: nat)
    requires Inv(s) && id in s.agents && s.agents[id].Writer? && s.agents[id].pc.Poisoned?
    ensures Inv(DoDropGuard(s, id))
  {
    hide NothingLost, QueueOk, NumbersOk, Monotone, IsPart, SoleWriterOwners, SoleReaderOwners;
    var s' := DoDropGuard(s, id);
    DropWriterTickets(s, id);
    assert AgentOk(s, s.agents[id]);
    assert Owned(s, id, s.sh.wServing);
    assert WrotePart(s'.h, s.sh.wServing);
    Released(s, s', id, true);
    PairsKept(s, s');
    hide AgentsOk, PairsOk, WireOk;
  }

  lemma DropReaderKept(s: State, id: nat)
    requires Inv(s) && id in s.agents && s.agents[id].Reader? && s.agents[id].rpc.RPoisoned?
    ensures Inv(DoDropGuard(s, id))
  {
    var s' := DoDropGuard(s, id);
    assert AgentOk(s, s.agents[id]);
    assert OwnedR(s, id, s.sh.rServing);
    NumbersKept(s, s', id);
    TicketsKept(s, s', id);
    WireKept(s, s', id);
    PairsKept(s, s');
  }

  lemma DropGuardKept(s: State, id: nat)
    requires Inv(s) && id in s.agents
    ensures Inv(DoDropGuard(s, id))
  {
    match s.agents[id]
    case Writer(_, _, Poisoned) => DropWriterKept(s, id);
    case Reader(_, _, RPoisoned) => DropReaderKept(s, id);
    case _ =>
  }

  // ----- reading -----------------------------------------------------------

  /** The reader guard drops and the agent ends or goes on as a decoded handle. */
  lemma ReaderReleasedTickets(s: State, s': State, id: nat)
    requires Inv(s) && id in s.agents && HoldsReader(s.agents[id])
    requires s'.sh == s.sh.ReleaseReader() && s'.lock == s.lock
    requires s'.h == s.h.(delivered := s'.h.delivered)
    requires if s.agents[id].rjob.CallHeld?
             then s'.agents == s.agents[id := Decoded(s.agents[id].rjob.w, s.agents[id].rjob.k)]
             else s'.agents == s.agents - {id}
    ensures Monotone(s, s', id) && NumbersOk(s')
    ensures AgentsOk(s') && QueueOk(s') && NothingLost(s')
  {
    hide WireOk, PairsOk, LockOk;
    var g := s.agents[id];
    assert AgentOk(s, g);
    assert OwnsReader(g, s.sh.rServing);
    if g.rjob.CallHeld? { assert OwnsWriter(g, g.rjob.w); }
    NumbersKept(s, s', id);
    TicketsKept(s, s', id);
    hide Inv, AgentsOk, QueueOk, NothingLost, NumbersOk, Monotone;
  }

  lemma ReaderReleased(s: State, s': State, id: nat)
    requires Inv(s) && id in s.agents && HoldsReader(s.agents[id])
    requires s'.sh == s.sh.ReleaseReader() && s'.lock == s.lock
    requires s'.h == s.h.(delivered := s'.h.delivered)
    requires if s.agents[id].rjob.CallHeld?
             then s'.agents == s.agents[id := Decoded(s.agents[id].rjob.w, s.agents[id].rjob.k)]
             else s'.agents == s.agents - {id}
    ensures Inv(s')
  {
    ReaderReleasedTickets(s, s', id);
    WireKept(s, s', id);
    PairsKept(s, s');
  }

  lemma ReadAnswerKept(s: State, id: nat)
    requires Inv(s) && id in s.agents
    ensures Inv(DoReadAnswer(s, id))
  {
    var s' := DoReadAnswer(s, id);
    if s' != s {
      ReaderReleased(s, s', id);
    }
  }

  lemma ReadFailsKept(s: State, id: nat, v: int)
    requires Inv(s) && id in s.agents
    ensures Inv(DoReadFails(s, id)) && Inv(DoReadGarbled(s, id, v))
  {
    var s' := DoReadFails(s, id);
    if s' != s {
      ReaderReleased(s, s', id);
    }
    var s'' := DoReadGarbled(s, id, v);
    if s'' != s {
      ReaderReleased(s, s'', id);
    }
  }

  /** The agent keeps the reader guard and turns to its error path. */
  lemma ReaderBroke(s: State, s': State, id: nat)
    requires Inv(s) && id in s.agents && s.agents[id].Reader? && s.agents[id].rpc.RHeld?
    requires !s.agents[id].rjob.Response? && !s.agents[id].rjob.HeaderRead?
    requires s' == s.(synced := false, agents := s.agents[id := s.agents[id].(rpc := RBroken)])
    ensures Inv(s')
  {
    var g, g' := s.agents[id], s'.agents[id];
    assert AgentOk(s, g);
    assert forall u: nat :: SameOwnership(g', g, u);
    StaysPut(s, s', id);
    NumbersKept(s, s', id);
    TicketsKept(s, s', id);
    WireKept(s, s', id);
    PairsKept(s, s');
  }

  /** The header is decoded: the agent keeps the reader guard and takes no ticket yet. */
  lemma HeaderDecoded(s: State, s': State, id: nat, wantReply: bool, at: nat)
    requires Inv(s) && id in s.agents && s.agents[id].Reader? && s.agents[id].rpc.RHeld?
    requires s.agents[id].rjob.Accepting?
    requires s' == s.(rpos := s'.rpos, agents := s.agents[id := s.agents[id].(rjob := HeaderRead(wantReply, at))])
    ensures Inv(s')
  {
    hide WireOk, NothingLost, QueueOk, PairsOk, SoleWriterOwners, SoleReaderOwners;
    var g, g' := s.agents[id], s'.agents[id];
    assert AgentOk(s, g);
    assert forall u: nat :: SameOwnership(g', g, u);
    StaysPut(s, s', id);
    NumbersKept(s, s', id);
    TicketsKept(s, s', id);
    WireKept(s, s', id);
    PairsKept(s, s');
  }

  lemma AcceptKept(s: State, id: nat)
    requires Inv(s) && id in s.agents
    ensures Inv(DoAccept(s, id))
  {
    var s' := DoAccept(s, id);
    if s' != s {
      hide Inv;
      if s.input[s.rpos].Call? { HeaderDecoded(s, s', id, s.input[s.rpos].wantReply, s.rpos); }
      else { ReaderBroke(s, s', id); }
    }
  }

  lemma AcceptGarbledKept(s: State, id: nat, wantReply: bool)
    requires Inv(s) && id in s.agents
    ensures Inv(DoAcceptGarbled(s, id, wantReply))
  {
    var s' := DoAcceptGarbled(s, id, wantReply);
    if s' != s {
      hide Inv;
      HeaderDecoded(s, s', id, wantReply, s.rpos);
    }
  }

  lemma ReplyTakenTickets(s: State, id: nat)
    requires Inv(s) && id in s.agents && s.agents[id].Reader? && s.agents[id].rpc.RHeld?
    requires s.agents[id].rjob.HeaderRead? && s.agents[id].rjob.wantReply
    ensures var s' := DoTakeReply(s, id);
            && Monotone(s, s', id) && NumbersOk(s')
            && AgentsOk(s') && QueueOk(s') && NothingLost(s')
  {
    var g, s' := s.agents[id], DoTakeReply(s, id);
    assert AgentOk(s, g);
    var x := ReplyTo(|ReplyTickets(s.h.purpose)|);
    assert s'.h.purpose[s.sh.wNext] == x;
    NumbersTaken(s, s', x);
    assert forall u: nat :: OwnedR(s', id, u) == OwnedR(s, id, u);
    assert forall u: nat :: Owned(s', id, u) == (u == s.sh.wNext);
    TicketsKept(s, s', id);
  }

  lemma TakeReplyKept(s: State, id: nat)
    requires Inv(s) && id in s.agents
    ensures Inv(DoTakeReply(s, id))
  {
    var g, s' := s.agents[id], DoTakeReply(s, id);
    if s' != s {
      if g.rjob.wantReply {
        ReplyTakenTickets(s, id);
        PurposeAppended(s.h.purpose, ReplyTo(|ReplyTickets(s.h.purpose)|));
        WireKept(s, s', id);
        PairsKept(s, s');
      } else {
        NoticeKept(s, id);
      }
      hide WireOk, NothingLost, QueueOk, NumbersOk, PairsOk, AgentsOk, Monotone;
    }
  }

  lemma NoticeKept(s: State, id: nat)
    requires Inv(s) && id in s.agents && s.agents[id].Reader? && s.agents[id].rpc.RHeld?
    requires s.agents[id].rjob.HeaderRead? && !s.agents[id].rjob.wantReply
    ensures Inv(DoTakeReply(s, id))
  {
    hide WireOk, NothingLost, QueueOk, NumbersOk, PairsOk, SoleWriterOwners, SoleReaderOwners;
    var g, s' := s.agents[id], DoTakeReply(s, id);
    assert AgentOk(s, g);
    assert forall u: nat :: SameOwnership(s'.agents[id], g, u);
    QuietKept(s, s', id);
  }

  lemma AcceptFailsKept(s: State, id: nat)
    requires Inv(s) && id in s.agents
    ensures Inv(DoAcceptFails(s, id))
  {
    var s' := DoAcceptFails(s, id);
    if s' != s { ReaderBroke(s, s', id); }
  }

  lemma DecodeKept(s: State, id: nat)
    requires Inv(s) && id in s.agents
    ensures Inv(DoDecodeOk(s, id)) && Inv(DoDropIncoming(s, id))
  {
    hide WireOk, NothingLost, QueueOk, NumbersOk, PairsOk, SoleWriterOwners, SoleReaderOwners;
    var g := s.agents[id];
    if g.Reader? && (g.rjob.CallHeld? || g.rjob.NoticeHeld?) && g.rpc.RHeld? {
      assert Inv(DoDecodeOk(s, id)) by { ReaderReleased(s, DoDecodeOk(s, id), id); }
      assert Inv(DoDropIncoming(s, id)) by { ReaderBroke(s, DoDropIncoming(s, id), id); }
    }
  }

  // ----- replies -----------------------------------------------------------

  lemma Decided(s: State, s': State, id: nat, d: Decision)
    requires Inv(s) && id in s.agents && s.agents[id].Decoded?
    requires s'.h == s.h.(decision := s.h.decision[s.agents[id].k := d])
    ensures DecisionChange(s, s', id)
    ensures s.agents[id].k < |ReplyTickets(s.h.purpose)|
  {
    var g := s.agents[id];
    assert AgentOk(s, g);
    assert Owned(s, id, g.w) && IsReply(s, g.w, g.k) && DecidedNow(s, s', g.k);
  }

  lemma RespondKept(s: State, id: nat, d: Decision)
    requires Inv(s) && id in s.agents
    ensures Inv(DoRespond(s, id, d))
  {
    hide WireOk, NothingLost, QueueOk, PairsOk, SoleWriterOwners, SoleReaderOwners;
    var s' := DoRespond(s, id, d);
    if s' != s {
      var g := s.agents[id];
      assert AgentOk(s, g);
      Decided(s, s', id, d);
      assert forall u: nat :: SameOwnership(s'.agents[id], g, u);
      StaysPut(s, s', id);
      NumbersKept(s, s', id);
      TicketsKept(s, s', id);
      WireKept(s, s', id);
      PairsKept(s, s');
    }
  }

  lemma DropDecodedKept(s: State, id: nat)
    requires Inv(s) && id in s.agents
    ensures Inv(DoDropDecoded(s, id))
  {
    var s' := DoDropDecoded(s, id);
    if s' != s {
      var g := s.agents[id];
      assert AgentOk(s, g);
      Decided(s, s', id, Dropped);
      assert OwnsWriter(g, g.w);
      NumbersKept(s, s', id);
      TicketsKept(s, s', id);
      WireKept(s, s', id);
      PairsKept(s, s');
    }
  }

  // ----- all steps ---------------------------------------------------------

  lemma StepKept(s: State, a: Action)
    requires Inv(s)
    ensures Inv(Step(s, a))
  {
    hide Inv, DoFinishPair, DoDrainTake, DoLoadPoison, DoLoadServing, DoWriteField, DoFinish, DoWriteFails,
         DoStorePoison, DoDropGuard, DoReadAnswer, DoReadFails, DoReadGarbled, DoAccept, DoAcceptFails,
         DoAcceptGarbled, DoTakeReply, DoDecodeOk, DoDropIncoming, DoRespond, DoDropDecoded;
    if a.StartRequest? { StartRequestKept(s, a.id, a.name, a.data); }
    else if a.StartNotice? { StartNoticeKept(s, a.id, a.name, a.data); }
    else if a.StartAccept? { StartAcceptKept(s, a.id); }
    else if a.id in s.agents {
      match a
      case FinishPair(id) => FinishPairKept(s, id);
      case DrainLoad(id) => DrainLoadKept(s, id);
      case DrainTake(id) => DrainTakeKept(s, id);
      case LoadPoison(id) => LoadPoisonKept(s, id);
      case LoadServing(id) => LoadServingKept(s, id);
      case Wake(id) => WakeKept(s, id);
      case WriteField(id) => WriteFieldKept(s, id);
      case Finish(id) => FinishKept(s, id);
      case WriteFails(id, torn) => WriteFailsKept(s, id, torn);
      case StorePoison(id) => StorePoisonKept(s, id);
      case DropGuard(id) => DropGuardKept(s, id);
      case ReadAnswer(id) => ReadAnswerKept(s, id);
      case ReadFails(id) => ReadFailsKept(s, id, 0);
      case ReadGarbled(id, v) => ReadFailsKept(s, id, v);
      case Accept(id) => AcceptKept(s, id);
      case AcceptFails(id) => AcceptFailsKept(s, id);
      case AcceptGarbled(id, wantReply) => AcceptGarbledKept(s, id, wantReply);
      case TakeReply(id) => TakeReplyKept(s, id);
      case DecodeOk(id) => DecodeKept(s, id);
      case DropIncoming(id) => DecodeKept(s, id);
      case Respond(id, d) => RespondKept(s, id, d);
      case DropDecoded(id) => DropDecodedKept(s, id);
    }
  }

  lemma InitOk(input: seq<InMsg>)
    ensures Inv(Init(input))
  {}

  /** The invariant holds after every run. */
  lemma {:induction false} RunKept(input: seq<InMsg>, acts: seq<Action>)
    ensures Inv(Run(input, acts))
  {
    hide Step, Inv;
    if acts == [] {
      InitOk(input);
    } else {
      RunKept(input, acts[..|acts| - 1]);
      StepKept(Run(input, acts[..|acts| - 1]), acts[|acts| - 1]);
    }
  }
}
