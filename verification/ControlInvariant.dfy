/**
 What every step of the control stream keeps. The main results are in ControlTheorems.
 */
module ControlInvariant {
  import opened Prelude
  import opened ControlStream

  // ----- ownership ---------------------------------------------------------

  /** Agent `a` is the one that must retire writer ticket `u`. */
  predicate OwnsWriter(a: Agent, u: nat) {
    match a
    case Pairing(w, _, _) => u == w
    case Writer(w, _, pc) =>
      || u == w
      || (pc.Took? && u == pc.c) || (pc.TookClear? && u == pc.c) || (pc.DrainHeld? && u == pc.c)
    case Reader(_, job, _) => job.CallHeld? && u == job.w
    case Decoded(w, _) => u == w
  }

  /** Agent `a` is the one that must retire reader ticket `u`. */
  predicate OwnsReader(a: Agent, u: nat) {
    match a
    case Writer(_, job, _) => job.Request? && u == job.readTicket
    case Reader(r, _, _) => u == r
    case _ => false
  }

  predicate HoldsWriter(a: Agent) {
    a.Writer? && (a.pc.Held? || a.pc.Broken? || a.pc.Poisoned? || a.pc.DrainHeld?)
  }

  predicate HoldsReader(a: Agent) {
    a.Reader? && (a.rpc.RHeld? || a.rpc.RBroken? || a.rpc.RPoisoned?)
  }

  ghost predicate SoleWriterOwners(agents: map<nat, Agent>) {
    forall i, j, u: nat {:trigger OwnsWriter(agents[i], u), OwnsWriter(agents[j], u)} ::
      i in agents && j in agents && OwnsWriter(agents[i], u) && OwnsWriter(agents[j], u) ==> i == j
  }

  ghost predicate SoleReaderOwners(agents: map<nat, Agent>) {
    forall i, j, u: nat {:trigger OwnsReader(agents[i], u), OwnsReader(agents[j], u)} ::
      i in agents && j in agents && OwnsReader(agents[i], u) && OwnsReader(agents[j], u) ==> i == j
  }

  ghost predicate WriterOwned(s: State, u: nat) {
    u in s.sh.autoFailures || exists i :: i in s.agents && OwnsWriter(s.agents[i], u)
  }

  ghost predicate ReaderOwned(s: State, u: nat) {
    exists i :: i in s.agents && OwnsReader(s.agents[i], u)
  }

  /** Without poison no ticket is lost. */
  ghost predicate NothingLost(s: State) {
    !s.sh.poisoned ==>
      && (forall u: nat :: s.sh.wServing <= u < s.sh.wNext ==> WriterOwned(s, u))
      && (forall u: nat :: s.sh.rServing <= u < s.sh.rNext ==> ReaderOwned(s, u))
  }

  // ----- local conditions --------------------------------------------------

  predicate WriterOpen(s: State, u: nat) { s.sh.wServing <= u < s.sh.wNext }

  predicate ReaderOpen(s: State, u: nat) { s.sh.rServing <= u < s.sh.rNext }

  predicate IsReply(s: State, u: nat, k: nat) {
    u < |s.h.purpose| && s.h.purpose[u] == ReplyTo(k)
  }

  /** Ticket `u` is for a request that was accepted and then dropped. */
  predicate IsDropped(s: State, u: nat) {
    && u < |s.h.purpose| && s.h.purpose[u].ReplyTo?
    && s.h.purpose[u].k in s.h.decision && s.h.decision[s.h.purpose[u].k] == Dropped
  }

  predicate JobOk(s: State, w: nat, job: Job) {
    w < |s.h.purpose| &&
    match job
    case Request(name, data, r) =>
      s.h.purpose[w] == OutRequest(name, data) && ReaderOpen(s, r) && (w, r) in s.h.pairs
    case Notice(name, data) => s.h.purpose[w] == OutNotice(name, data)
    case Reply(k, d) =>
      s.h.purpose[w] == ReplyTo(k) && k in s.h.decision && s.h.decision[k] == d
  }

  /** Whole fields of a message, then perhaps what a failing encode call left of the next one. */
  predicate IsPart(c: seq<Field>, m: seq<Field>) {
    c <= m || (c != [] && |c| <= |m| && c[..|c| - 1] <= m && c[|c| - 1] == Torn)
  }

  predicate PcOk(s: State, w: nat, job: Job, pc: WriterPc) {
    match pc
    case Loaded(c) => c <= s.sh.wServing
    case Took(c) => c == s.sh.wServing && c != w && IsDropped(s, c)
    case TookClear(c) => c == s.sh.wServing && c != w && IsDropped(s, c)
    case DrainHeld(c, n) =>
      && c == s.sh.wServing && c != w && IsDropped(s, c)
      && n <= |FAILURE| && s.h.cur == FAILURE[..n]
    case Acquire => w == s.sh.wServing
    case Clear => w == s.sh.wServing
    case Held(n) => w == s.sh.wServing && n <= |Message(job)| && s.h.cur == Message(job)[..n]
    case Broken => w == s.sh.wServing && IsPart(s.h.cur, Message(job))
    case Poisoned => w == s.sh.wServing && s.sh.poisoned && IsPart(s.h.cur, Message(job))
    case _ => true
  }

  predicate ReaderJobOk(s: State, r: nat, job: ReaderJob, pc: ReaderPc) {
    match job
    case Response(w) => w < s.sh.wServing && (w, r) in s.h.pairs && !pc.RBroken? && !pc.RPoisoned?
    case Accepting => true
    case HeaderRead(_, _) => pc.RHeld?
    case CallHeld(w, k) =>
      !pc.RAcquire? && !pc.RClear? && WriterOpen(s, w) && IsReply(s, w, k) && k !in s.h.decision
    case NoticeHeld => !pc.RAcquire? && !pc.RClear?
  }

  predicate AgentOk(s: State, a: Agent) {
    match a
    case Pairing(w, name, data) =>
      WriterOpen(s, w) && w < |s.h.purpose| && s.h.purpose[w] == OutRequest(name, data)
    case Writer(w, job, pc) => WriterOpen(s, w) && JobOk(s, w, job) && PcOk(s, w, job, pc)
    case Reader(r, job, pc) =>
      && ReaderOpen(s, r) && ReaderJobOk(s, r, job, pc)
      && (HoldsReader(a) ==> r == s.sh.rServing)
      && (pc.RPoisoned? ==> s.sh.poisoned)
    case Decoded(w, k) => WriterOpen(s, w) && IsReply(s, w, k) && k !in s.h.decision
  }

  ghost predicate AgentsOk(s: State) {
    && SoleWriterOwners(s.agents) && SoleReaderOwners(s.agents)
    && forall i :: i in s.agents ==> AgentOk(s, s.agents[i])
  }

  ghost predicate QueueOk(s: State) {
    && (forall u: nat :: u in s.sh.autoFailures ==> WriterOpen(s, u) && IsDropped(s, u))
    && (forall i, u: nat :: i in s.agents && OwnsWriter(s.agents[i], u) ==> u !in s.sh.autoFailures)
  }

  ghost predicate LockOk(s: State) {
    && (s.lock.Some? ==> s.lock.value in s.agents && s.agents[s.lock.value].Pairing?)
    && (forall i :: i in s.agents && s.agents[i].Pairing? ==> s.lock == Some(i))
  }

  // ----- history -----------------------------------------------------------

  ghost predicate NumbersOk(s: State) {
    && |s.h.purpose| == s.sh.wNext
    && s.sh.wServing <= s.sh.wNext && s.sh.rServing <= s.sh.rNext
    && (forall u: nat :: 0 <= u < |s.h.purpose| && s.h.purpose[u].ReplyTo? ==>
          s.h.purpose[u].k < |ReplyTickets(s.h.purpose)|
          && ReplyTickets(s.h.purpose)[s.h.purpose[u].k] == u)
    && (forall k :: k in s.h.decision ==> k < |ReplyTickets(s.h.purpose)|)
  }

  /** The message a ticket was taken for, once that is settled. */
  function MessageOf(h: History, u: nat): Option<seq<Field>>
    requires u < |h.purpose|
  {
    match h.purpose[u]
    case OutRequest(name, data) => Some(RequestFields(name, true, data))
    case OutNotice(name, data) => Some(RequestFields(name, false, data))
    case ReplyTo(k) => if k in h.decision then Some(ReplyFields(h.decision[k])) else None
  }

  /** A retired ticket wrote its whole message ... */
  predicate WroteAll(h: History, u: nat)
    requires u < |h.chunks| && u < |h.purpose|
  {
    MessageOf(h, u) == Some(h.chunks[u])
  }

  /** ... or, if its write failed, a part of it. */
  predicate WrotePart(h: History, u: nat)
    requires u < |h.chunks| && u < |h.purpose|
  {
    MessageOf(h, u).Some? && IsPart(h.chunks[u], MessageOf(h, u).value)
  }

  ghost predicate SomeGuard(s: State) {
    exists i :: i in s.agents && HoldsWriter(s.agents[i])
  }

  ghost predicate SomeDrainBroken(s: State) {
    exists i :: i in s.agents && s.agents[i].Writer? && s.agents[i].pc.DrainBroken?
  }

  ghost predicate WireOk(s: State) {
    && |s.h.chunks| == s.sh.wServing
    && s.h.wire == Flatten(s.h.chunks) + s.h.cur
    && (s.h.cur == [] || SomeGuard(s))
    && (forall u: nat :: 0 <= u < |s.h.chunks| ==>
          u < |s.h.purpose| && if u in s.h.broken then WrotePart(s.h, u) else WroteAll(s.h, u))
    && (forall u: nat :: u in s.h.broken ==> u < s.sh.wServing)
    && (s.h.broken == {} || s.sh.poisoned || SomeDrainBroken(s))
  }

  function WriteTickets(pairs: seq<(nat, nat)>): seq<nat> {
    seq(|pairs|, i requires 0 <= i < |pairs| => pairs[i].0)
  }

  /** The write ticket of a pair whose read ticket is still to be taken. */
  function HalfPair(s: State): seq<nat> {
    if s.lock.Some? && s.lock.value in s.agents && s.agents[s.lock.value].Pairing?
    then [s.agents[s.lock.value].w] else []
  }

  predicate PairsOk(s: State) {
    && RequestTickets(s.h.purpose) == WriteTickets(s.h.pairs) + HalfPair(s)
    && (forall i :: 0 <= i < |s.h.pairs| ==> s.h.pairs[i].1 < s.sh.rNext)
    && (forall i, j :: 0 <= i < j < |s.h.pairs| ==>
          s.h.pairs[i].0 < s.h.pairs[j].0 && s.h.pairs[i].1 < s.h.pairs[j].1)
  }

  ghost predicate Inv(s: State) {
    && NumbersOk(s) && AgentsOk(s) && QueueOk(s) && LockOk(s) && NothingLost(s)
    && WireOk(s) && PairsOk(s)
  }
}
