/** The history part of the invariant, and the steps that test, wait or give up and write nothing. */
module ControlTestSteps {
  import opened ControlStream
  import opened ControlInvariant
  import opened ControlSteps

  // ----- numbers -----------------------------------------------------------

  lemma NumbersKept(s: State, s': State, id: nat)
    requires NumbersOk(s) && Monotone(s, s', id)
    requires s'.h.purpose == s.h.purpose && s'.sh.wNext == s.sh.wNext
    requires s'.sh.wServing <= s'.sh.wNext && s'.sh.rServing <= s'.sh.rNext
    ensures NumbersOk(s')
  {}

  lemma PurposeAppended(p: seq<Purpose>, x: Purpose)
    ensures ReplyTickets(p + [x]) == ReplyTickets(p) + if x.ReplyTo? then [|p|] else []
    ensures RequestTickets(p + [x]) == RequestTickets(p) + if x.OutRequest? then [|p|] else []
  {
    assert (p + [x])[..|p|] == p;
  }

  lemma NumbersTaken(s: State, s': State, x: Purpose)
    requires NumbersOk(s)
    requires s'.h.purpose == s.h.purpose + [x] && s'.sh.wNext == s.sh.wNext + 1
    requires s'.sh.wServing == s.sh.wServing && s'.sh.rServing == s.sh.rServing && s.sh.rNext <= s'.sh.rNext
    requires s'.h.decision == s.h.decision
    requires x.ReplyTo? ==> x.k == |ReplyTickets(s.h.purpose)|
    ensures NumbersOk(s')
  {
    PurposeAppended(s.h.purpose, x);
  }

  // ----- wire --------------------------------------------------------------

  predicate SameWire(s: State, s': State) {
    && s'.h.wire == s.h.wire && s'.h.chunks == s.h.chunks && s'.h.cur == s.h.cur
    && s'.h.broken == s.h.broken && s'.sh.wServing == s.sh.wServing
  }

  lemma WroteAllKept(s: State, s': State, id: nat)
    requires NumbersOk(s) && WireOk(s) && Monotone(s, s', id)
    requires s.h.chunks <= s'.h.chunks
    requires forall u :: u in s'.h.broken && u < |s.h.chunks| ==> u in s.h.broken
    requires s.h.broken <= s'.h.broken
    ensures forall u: nat :: u < |s.h.chunks| ==>
              u < |s'.h.purpose| && if u in s'.h.broken then WrotePart(s'.h, u) else WroteAll(s'.h, u)
  {}

  lemma WireKept(s: State, s': State, id: nat)
    requires NumbersOk(s) && WireOk(s) && Monotone(s, s', id) && SameWire(s, s')
    requires id in s.agents && HoldsWriter(s.agents[id]) ==>
               id in s'.agents && HoldsWriter(s'.agents[id])
    requires id in s.agents && s.agents[id].Writer? && s.agents[id].pc.DrainBroken? ==>
               s'.sh.poisoned
    ensures WireOk(s')
  {
    WroteAllKept(s, s', id);
    if SomeGuard(s) {
      var i :| i in s.agents && HoldsWriter(s.agents[i]);
      assert i in s'.agents && HoldsWriter(s'.agents[i]);
    }
    if SomeDrainBroken(s) && !s'.sh.poisoned {
      var i :| i in s.agents && s.agents[i].Writer? && s.agents[i].pc.DrainBroken?;
      assert i in s'.agents && s'.agents[i].Writer? && s'.agents[i].pc.DrainBroken?;
    }
  }

  // ----- pairs ------------------------------------------------

  predicate IsPairing(s: State, id: nat) { id in s.agents && s.agents[id].Pairing? }

  /** Agents that are not between their two tickets have no part in the pair lock. */
  lemma LockKept(s: State, s': State, id: nat)
    requires LockOk(s) && Monotone(s, s', id) && s'.lock == s.lock
    requires !IsPairing(s, id) && !IsPairing(s', id)
    ensures LockOk(s') && HalfPair(s') == HalfPair(s)
  {}

  lemma PairsKept(s: State, s': State)
    requires PairsOk(s)
    requires s'.h.pairs == s.h.pairs && RequestTickets(s'.h.purpose) == RequestTickets(s.h.purpose)
    requires HalfPair(s') == HalfPair(s) && s.sh.rNext <= s'.sh.rNext
    ensures PairsOk(s')
  {}

  // ----- quiet steps -------------------------------------------------------

  /** Only agent `id` moves, and no ticket changes hands. */
  predicate Quiet(s: State, s': State, id: nat) {
    && id in s.agents && id in s'.agents
    && s' == s.(agents := s.agents[id := s'.agents[id]])
    && !s.agents[id].Pairing? && !s'.agents[id].Pairing?
    && (HoldsWriter(s.agents[id]) ==> HoldsWriter(s'.agents[id]))
    && !(s.agents[id].Writer? && s.agents[id].pc.DrainBroken?)
  }

  lemma QuietKept(s: State, s': State, id: nat)
    requires Inv(s) && Quiet(s, s', id)
    requires AgentOk(s', s'.agents[id])
    requires forall u: nat :: SameOwnership(s'.agents[id], s.agents[id], u)
    ensures Inv(s')
  {
    StaysPut(s, s', id);
    TicketsKept(s, s', id);
    WireKept(s, s', id);
    PairsKept(s, s');
  }

  /** An agent that finds the session poisoned gives up, with all its tickets. */
  lemma GivesUp(s: State, id: nat)
    requires Inv(s) && id in s.agents && s.sh.poisoned
    requires !s.agents[id].Pairing? && !HoldsWriter(s.agents[id])
    ensures Inv(Remove(s, id))
  {
    var s' := Remove(s, id);
    TicketsKept(s, s', id);
    WireKept(s, s', id);
    PairsKept(s, s');
  }

  lemma LoadPoisonOk(s: State, id: nat)
    requires Inv(s) && id in s.agents && DoLoadPoison(s, id) != s && !s.sh.poisoned
    ensures Quiet(s, DoLoadPoison(s, id), id)
    ensures AgentOk(DoLoadPoison(s, id), DoLoadPoison(s, id).agents[id])
    ensures forall u: nat :: SameOwnership(DoLoadPoison(s, id).agents[id], s.agents[id], u)
  {
    assert AgentOk(s, s.agents[id]);
  }

  lemma LoadPoisonKept(s: State, id: nat)
    requires Inv(s) && id in s.agents
    ensures Inv(DoLoadPoison(s, id))
  {
    var s' := DoLoadPoison(s, id);
    if s' != s {
      if s.sh.poisoned { GivesUp(s, id); }
      else { LoadPoisonOk(s, id); QuietKept(s, s', id); }
    }
  }

  /** Nobody holds the writer guard while the owner of the served ticket does not. */
  lemma UnheldIsFresh(s: State, id: nat)
    requires Inv(s) && id in s.agents && OwnsWriter(s.agents[id], s.sh.wServing)
    requires !HoldsWriter(s.agents[id])
    ensures s.h.cur == []
  {
    if SomeGuard(s) {
      var i :| i in s.agents && HoldsWriter(s.agents[i]);
      assert AgentOk(s, s.agents[i]);
      assert OwnsWriter(s.agents[i], s.sh.wServing);
      assert false;
    }
  }

  /** The agent that loaded the serving counter: what it believes next is right. */
  lemma LoadServingOk(s: State, id: nat)
    requires Inv(s) && id in s.agents && DoLoadServing(s, id) != s
    ensures Quiet(s, DoLoadServing(s, id), id)
    ensures AgentOk(DoLoadServing(s, id), DoLoadServing(s, id).agents[id])
  {
    var g := s.agents[id];
    assert AgentOk(s, g);
    if g.Writer? {
      if OwnsWriter(g, s.sh.wServing) { UnheldIsFresh(s, id); }
    }
  }

  lemma LoadServingKept(s: State, id: nat)
    requires Inv(s) && id in s.agents
    ensures Inv(DoLoadServing(s, id))
  {
    var s' := DoLoadServing(s, id);
    if s' != s {
      LoadServingOk(s, id);
      var g, g' := s.agents[id], s'.agents[id];
      assert AgentOk(s, g);
      assert forall u: nat :: SameOwnership(g', g, u);
      QuietKept(s, s', id);
    }
  }

  lemma DrainLoadKept(s: State, id: nat)
    requires Inv(s) && id in s.agents
    ensures Inv(Step(s, DrainLoad(id)))
  {
    var s' := Step(s, DrainLoad(id));
    if s' != s {
      assert AgentOk(s, s.agents[id]);
      assert forall u: nat :: SameOwnership(s'.agents[id], s.agents[id], u);
      QuietKept(s, s', id);
    }
  }

  lemma WakeKept(s: State, id: nat)
    requires Inv(s) && id in s.agents
    ensures Inv(Step(s, Wake(id)))
  {
    var s' := Step(s, Wake(id));
    if s' != s {
      assert AgentOk(s, s.agents[id]);
      assert forall u: nat :: SameOwnership(s'.agents[id], s.agents[id], u);
      QuietKept(s, s', id);
    }
  }

  /** drain_auto_failures removes the served ticket from the queue. */
  lemma DrainTookTickets(s: State, id: nat)
    requires Inv(s) && id in s.agents && s.agents[id].Writer? && s.agents[id].pc.Loaded?
    requires s.agents[id].pc.c in s.sh.autoFailures
    ensures Monotone(s, DoDrainTake(s, id), id)
    ensures AgentsOk(DoDrainTake(s, id)) && QueueOk(DoDrainTake(s, id)) && NothingLost(DoDrainTake(s, id))
  {
    var s' := DoDrainTake(s, id);
    var g := s.agents[id];
    assert AgentOk(s, g);
    assert WriterOpen(s, g.pc.c) && IsDropped(s, g.pc.c);
    assert OwnsWriter(g, g.w);
    assert forall u: nat :: Owned(s', id, u) == (Owned(s, id, u) || u == g.pc.c);
    assert forall u: nat :: OwnedR(s', id, u) == OwnedR(s, id, u);
    TicketsKept(s, s', id);
  }

  lemma DrainTook(s: State, id: nat)
    requires Inv(s) && id in s.agents && s.agents[id].Writer? && s.agents[id].pc.Loaded?
    requires s.agents[id].pc.c in s.sh.autoFailures
    ensures Inv(DoDrainTake(s, id))
  {
    var s' := DoDrainTake(s, id);
    DrainTookTickets(s, id);
    WireKept(s, s', id);
    PairsKept(s, s');
  }

  lemma DrainTakeKept(s: State, id: nat)
    requires Inv(s) && id in s.agents
    ensures Inv(DoDrainTake(s, id))
  {
    var s' := DoDrainTake(s, id);
    if s' != s {
      if s.agents[id].pc.c in s.sh.autoFailures {
        DrainTook(s, id);
      } else {
        assert AgentOk(s, s.agents[id]);
        assert forall u: nat :: SameOwnership(s'.agents[id], s.agents[id], u);
        QuietKept(s, s', id);
      }
    }
  }
}
