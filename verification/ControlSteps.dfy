/**
 Every step of the control stream keeps `Inv`. A step moves one agent; `Change` says
 what such a move may do to tickets, and that is all the other agents need to know.
 */
module ControlSteps {
  import opened ControlStream
  import opened ControlInvariant

  predicate Owned(s: State, id: nat, u: nat) {
    id in s.agents && OwnsWriter(s.agents[id], u)
  }

  predicate OwnedR(s: State, id: nat, u: nat) {
    id in s.agents && OwnsReader(s.agents[id], u)
  }

  predicate DecidedNow(s: State, s': State, k: nat) {
    && k !in s.h.decision && k in s'.h.decision
    && s'.h.decision == s.h.decision[k := s'.h.decision[k]]
  }

  /** At most one decision is taken, on a request whose ticket agent `id` owns. */
  ghost predicate DecisionChange(s: State, s': State, id: nat) {
    || s'.h.decision == s.h.decision
    || exists u: nat, k: nat :: Owned(s, id, u) && IsReply(s, u, k) && DecidedNow(s, s', k)
  }

  ghost predicate Monotone(s: State, s': State, id: nat) {
    && (forall i :: i != id ==> (i in s.agents <==> i in s'.agents))
    && (forall i :: i != id && i in s.agents ==> s'.agents[i] == s.agents[i])
    && (s.sh.poisoned ==> s'.sh.poisoned)
    && s.h.purpose <= s'.h.purpose && s.h.pairs <= s'.h.pairs
    && s.sh.wNext <= s'.sh.wNext && s.sh.rNext <= s'.sh.rNext
    && (s'.sh.wServing == s.sh.wServing
        || (s'.sh.wServing == s.sh.wServing + 1 && Owned(s, id, s.sh.wServing)))
    && (s'.sh.rServing == s.sh.rServing
        || (s'.sh.rServing == s.sh.rServing + 1 && OwnedR(s, id, s.sh.rServing)))
    && (s'.h.cur == s.h.cur || Owned(s, id, s.sh.wServing))
    && DecisionChange(s, s', id)
  }

  /** Tickets move only between agent `id`, the queue and the counters. */
  ghost predicate Transfer(s: State, s': State, id: nat) {
    && (forall u: nat :: Owned(s', id, u) ==>
          u !in s'.sh.autoFailures
          && (Owned(s, id, u) || u in s.sh.autoFailures || s.sh.wNext <= u))
    && (forall u: nat :: OwnedR(s', id, u) ==> OwnedR(s, id, u) || s.sh.rNext <= u)
    && (forall u: nat :: u in s'.sh.autoFailures ==> u in s.sh.autoFailures || Owned(s, id, u))
    && (forall u: nat :: Owned(s, id, u) ==>
          Owned(s', id, u) || u in s'.sh.autoFailures || u < s'.sh.wServing || s'.sh.poisoned)
    && (forall u: nat :: OwnedR(s, id, u) ==> OwnedR(s', id, u) || u < s'.sh.rServing || s'.sh.poisoned)
    && (forall u: nat :: u in s.sh.autoFailures ==> u in s'.sh.autoFailures || Owned(s', id, u))
    && (forall u: nat :: s.sh.wNext <= u < s'.sh.wNext ==> Owned(s', id, u))
    && (forall u: nat :: s.sh.rNext <= u < s'.sh.rNext ==> OwnedR(s', id, u))
  }

  lemma OwnedIsOpen(s: State, a: Agent, u: nat)
    requires AgentOk(s, a)
    ensures OwnsWriter(a, u) ==> WriterOpen(s, u)
    ensures OwnsReader(a, u) ==> ReaderOpen(s, u)
  {}

  /** The tickets of another agent stay open. */
  lemma OtherTicketsOpen(s: State, s': State, id: nat, i: nat, u: nat)
    requires AgentsOk(s) && Monotone(s, s', id)
    requires i != id && i in s.agents
    ensures OwnsWriter(s.agents[i], u) ==> WriterOpen(s', u)
    ensures OwnsReader(s.agents[i], u) ==> ReaderOpen(s', u)
  {
    hide DecisionChange;
    var b := s.agents[i];
    assert AgentOk(s, b);
    OwnedIsOpen(s, b, u);
    assert OwnsWriter(b, u) ==> !Owned(s, id, u);
    assert OwnsReader(b, u) ==> !OwnedR(s, id, u);
  }

  /** A decision that some agent takes is not about the ticket of another. */
  lemma OthersUndecided(s: State, s': State, id: nat, i: nat, w: nat, k: nat)
    requires NumbersOk(s) && AgentsOk(s) && Monotone(s, s', id)
    requires i != id && i in s.agents && OwnsWriter(s.agents[i], w) && IsReply(s, w, k)
    ensures k in s.h.decision <==> k in s'.h.decision
    ensures k in s.h.decision ==> s'.h.decision[k] == s.h.decision[k]
  {
    if s'.h.decision != s.h.decision {
      var u: nat, k': nat :| Owned(s, id, u) && IsReply(s, u, k') && DecidedNow(s, s', k');
      assert OwnsWriter(s.agents[id], u);
    }
    hide AgentOk, SoleReaderOwners;
  }

  lemma OtherAgentKept(s: State, s': State, id: nat, i: nat)
    requires NumbersOk(s) && AgentsOk(s) && Monotone(s, s', id)
    requires i != id && i in s.agents
    ensures AgentOk(s', s.agents[i])
  {
    var b := s.agents[i];
    assert AgentOk(s, b);
    forall u: nat
      ensures OwnsWriter(b, u) ==> WriterOpen(s', u)
      ensures OwnsReader(b, u) ==> ReaderOpen(s', u)
    {
      OtherTicketsOpen(s, s', id, i, u);
    }
    forall u: nat, k: nat | OwnsWriter(b, u) && IsReply(s, u, k)
      ensures k in s.h.decision <==> k in s'.h.decision
      ensures k in s.h.decision ==> s'.h.decision[k] == s.h.decision[k]
    {
      OthersUndecided(s, s', id, i, u, k);
    }
    match b
    case Pairing(w, _, _) => assert OwnsWriter(b, w);
    case Decoded(w, k) => assert OwnsWriter(b, w) && IsReply(s, w, k);
    case Reader(r, job, _) =>
      assert OwnsReader(b, r);
      if job.CallHeld? { assert OwnsWriter(b, job.w) && IsReply(s, job.w, job.k); }
    case Writer(w, job, pc) =>
      assert OwnsWriter(b, w);
      if job.Request? { assert OwnsReader(b, job.readTicket); }
      if job.Reply? { assert IsReply(s, w, job.k); }
      WriterPcKept(s, s', id, i);
    hide SoleWriterOwners, SoleReaderOwners, DecisionChange, IsPart, PcOk;
  }

  lemma WriterPcKept(s: State, s': State, id: nat, i: nat)
    requires NumbersOk(s) && AgentsOk(s) && Monotone(s, s', id)
    requires i != id && i in s.agents && s.agents[i].Writer?
    ensures PcOk(s', s.agents[i].w, s.agents[i].job, s.agents[i].pc)
  {
    var b := s.agents[i];
    assert AgentOk(s, b);
    if OwnsWriter(b, s.sh.wServing) {
      assert !Owned(s, id, s.sh.wServing);
      assert s'.sh.wServing == s.sh.wServing && s'.h.cur == s.h.cur;
    }
  }

  lemma OwnersKept(s: State, s': State, id: nat)
    requires AgentsOk(s) && Monotone(s, s', id) && Transfer(s, s', id)
    requires QueueOk(s)
    ensures SoleWriterOwners(s'.agents) && SoleReaderOwners(s'.agents)
  {
    forall i, u: nat | i != id && i in s'.agents
      ensures OwnsWriter(s'.agents[i], u) ==> !Owned(s', id, u)
      ensures OwnsReader(s'.agents[i], u) ==> !OwnedR(s', id, u)
    {
      var b := s.agents[i];
      assert AgentOk(s, b);
      OwnedIsOpen(s, b, u);
      assert OwnsWriter(b, u) ==> !Owned(s, id, u);
      assert OwnsReader(b, u) ==> !OwnedR(s, id, u);
    }
    forall i, j, u: nat | i in s'.agents && j in s'.agents && OwnsWriter(s'.agents[i], u) && OwnsWriter(s'.agents[j], u)
      ensures i == j
    {
      assert (i == id ==> Owned(s', id, u)) && (j == id ==> Owned(s', id, u));
    }
    forall i, j, u: nat | i in s'.agents && j in s'.agents && OwnsReader(s'.agents[i], u) && OwnsReader(s'.agents[j], u)
      ensures i == j
    {
      assert (i == id ==> OwnedR(s', id, u)) && (j == id ==> OwnedR(s', id, u));
    }
  }

  lemma AgentsKept(s: State, s': State, id: nat)
    requires NumbersOk(s) && AgentsOk(s) && QueueOk(s)
    requires Monotone(s, s', id) && Transfer(s, s', id)
    requires id in s'.agents ==> AgentOk(s', s'.agents[id])
    ensures AgentsOk(s')
  {
    OwnersKept(s, s', id);
    forall i | i in s'.agents ensures AgentOk(s', s'.agents[i]) {
      if i != id { OtherAgentKept(s, s', id, i); }
    }
  }

  lemma QueueKept(s: State, s': State, id: nat)
    requires NumbersOk(s) && AgentsOk(s) && QueueOk(s)
    requires Monotone(s, s', id) && Transfer(s, s', id)
    requires forall u: nat ::
               u in s'.sh.autoFailures && u !in s.sh.autoFailures ==> WriterOpen(s', u) && IsDropped(s', u)
    ensures QueueOk(s')
  {
    forall u: nat | u in s'.sh.autoFailures && u in s.sh.autoFailures
      ensures WriterOpen(s', u) && IsDropped(s', u)
    {
      assert !Owned(s, id, u);
    }
    forall i, u: nat | i in s'.agents && OwnsWriter(s'.agents[i], u) ensures u !in s'.sh.autoFailures {
      assert i == id ==> Owned(s', id, u);
      assert i != id ==> OwnsWriter(s.agents[i], u) && !Owned(s, id, u);
    }
  }

  lemma NothingLostKept(s: State, s': State, id: nat)
    requires NothingLost(s) && Monotone(s, s', id) && Transfer(s, s', id)
    ensures NothingLost(s')
  {
    if !s'.sh.poisoned {
      forall u: nat | s'.sh.wServing <= u < s'.sh.wNext ensures WriterOwned(s', u) {
        if s.sh.wNext <= u { assert Owned(s', id, u); }
        else {
          assert WriterOwned(s, u);
          if u !in s.sh.autoFailures {
            var i :| i in s.agents && OwnsWriter(s.agents[i], u);
            assert i == id ==> Owned(s, id, u);
            assert (i in s'.agents && OwnsWriter(s'.agents[i], u)) || u in s'.sh.autoFailures;
          } else {
            assert u in s'.sh.autoFailures || Owned(s', id, u);
          }
        }
      }
      forall u: nat | s'.sh.rServing <= u < s'.sh.rNext ensures ReaderOwned(s', u) {
        if s.sh.rNext <= u { assert OwnedR(s', id, u); }
        else {
          assert ReaderOwned(s, u);
          var i :| i in s.agents && OwnsReader(s.agents[i], u);
          assert i == id ==> OwnedR(s, id, u);
          assert i in s'.agents && OwnsReader(s'.agents[i], u);
        }
      }
    }
  }

  predicate SameOwnership(a: Agent, b: Agent, u: nat) {
    OwnsWriter(a, u) == OwnsWriter(b, u) && OwnsReader(a, u) == OwnsReader(b, u)
  }

  /** No ticket changes hands when an agent keeps its own. */
  lemma StaysPut(s: State, s': State, id: nat)
    requires QueueOk(s) && id in s.agents && id in s'.agents
    requires forall u: nat :: SameOwnership(s'.agents[id], s.agents[id], u)
    requires s'.sh == s.sh.(poisoned := s'.sh.poisoned)
    ensures Transfer(s, s', id)
  {
    forall u: nat
      ensures Owned(s', id, u) == Owned(s, id, u) && OwnedR(s', id, u) == OwnedR(s, id, u)
    {
      assert SameOwnership(s'.agents[id], s.agents[id], u);
    }
  }

  /** The ticket part of the invariant. */
  lemma TicketsKept(s: State, s': State, id: nat)
    requires NumbersOk(s) && AgentsOk(s) && QueueOk(s) && NothingLost(s)
    requires Monotone(s, s', id) && Transfer(s, s', id)
    requires id in s'.agents ==> AgentOk(s', s'.agents[id])
    requires forall u: nat ::
               u in s'.sh.autoFailures && u !in s.sh.autoFailures ==> WriterOpen(s', u) && IsDropped(s', u)
    ensures AgentsOk(s') && QueueOk(s') && NothingLost(s')
  {
    AgentsKept(s, s', id);
    QueueKept(s, s', id);
    NothingLostKept(s, s', id);
  }
}
