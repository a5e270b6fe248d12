/**
 The main results about the control stream, each for every run: any number of agents,
 any interleaving, any I/O error, any dropped handle.
 */
module ControlTheorems {
  import opened Prelude
  import opened ControlStream
  import opened ControlInvariant
  import opened ControlSteps
  import opened ControlWriteSteps
  import opened ControlReader

  // ----- mutual exclusion and conservation ---------------------------------

  /** The ticket whose guard a writing agent holds. */
  function GuardTicket(a: Agent): nat
    requires HoldsWriter(a)
  {
    if a.pc.DrainHeld? then a.pc.c else a.w
  }

  lemma MutualExclusion(input: seq<InMsg>, acts: seq<Action>, i: nat, j: nat)
    requires var s := Run(input, acts); i in s.agents && j in s.agents
    ensures var s := Run(input, acts);
            HoldsWriter(s.agents[i]) ==>
              && GuardTicket(s.agents[i]) == s.sh.wServing
              && (HoldsWriter(s.agents[j]) ==> i == j)
    ensures var s := Run(input, acts);
            HoldsReader(s.agents[i]) ==>
              && s.agents[i].r == s.sh.rServing
              && (HoldsReader(s.agents[j]) ==> i == j)
  {
    RunKept(input, acts);
    var s := Run(input, acts);
    assert AgentOk(s, s.agents[i]) && AgentOk(s, s.agents[j]);
    if HoldsWriter(s.agents[i]) { assert OwnsWriter(s.agents[i], s.sh.wServing); }
    if HoldsWriter(s.agents[j]) { assert OwnsWriter(s.agents[j], s.sh.wServing); }
    if HoldsReader(s.agents[i]) { assert OwnsReader(s.agents[i], s.sh.rServing); }
    if HoldsReader(s.agents[j]) { assert OwnsReader(s.agents[j], s.sh.rServing); }
  }

  /** Exactly one place is answerable for writer ticket `u`. */
  ghost predicate OneWriterOwner(s: State, u: nat) {
    || (u in s.sh.autoFailures && forall i :: i in s.agents ==> !OwnsWriter(s.agents[i], u))
    || (u !in s.sh.autoFailures
        && exists i :: i in s.agents && OwnsWriter(s.agents[i], u)
                       && forall j :: j in s.agents && OwnsWriter(s.agents[j], u) ==> i == j)
  }

  ghost predicate OneReaderOwner(s: State, u: nat) {
    exists i :: i in s.agents && OwnsReader(s.agents[i], u)
                && forall j :: j in s.agents && OwnsReader(s.agents[j], u) ==> i == j
  }

  lemma TicketConservation(input: seq<InMsg>, acts: seq<Action>, u: nat)
    ensures var s := Run(input, acts);
            !s.sh.poisoned ==> (s.sh.wServing <= u < s.sh.wNext <==> OneWriterOwner(s, u))
    ensures var s := Run(input, acts);
            !s.sh.poisoned ==> (s.sh.rServing <= u < s.sh.rNext <==> OneReaderOwner(s, u))
  {
    RunKept(input, acts);
    var s := Run(input, acts);
    if !s.sh.poisoned {
      if s.sh.wServing <= u < s.sh.wNext {
        assert WriterOwned(s, u);
        if u !in s.sh.autoFailures { var i :| i in s.agents && OwnsWriter(s.agents[i], u); }
      } else {
        forall i | i in s.agents ensures !OwnsWriter(s.agents[i], u) {
          OwnedIsOpen(s, s.agents[i], u);
        }
        assert u in s.sh.autoFailures ==> WriterOpen(s, u);
      }
      if s.sh.rServing <= u < s.sh.rNext {
        assert ReaderOwned(s, u);
        var i :| i in s.agents && OwnsReader(s.agents[i], u);
      } else {
        forall i | i in s.agents ensures !OwnsReader(s.agents[i], u) {
          OwnedIsOpen(s, s.agents[i], u);
        }
      }
    }
  }

  /** The queue lies between the counters, and a drainer that took a ticket from it
      finds that very ticket served: its `acquire` never waits. */
  lemma DrainNeverWaits(input: seq<InMsg>, acts: seq<Action>, id: nat)
    ensures var s := Run(input, acts);
            forall u :: u in s.sh.autoFailures ==> s.sh.wServing <= u < s.sh.wNext
    ensures var s := Run(input, acts);
            id in s.agents && s.agents[id].Writer? && s.agents[id].pc.TookClear? ==>
              Step(s, LoadServing(id)).agents[id].pc == DrainHeld(s.sh.wServing, 0)
  {
    RunKept(input, acts);
    var s := Run(input, acts);
    assert forall u :: u in s.sh.autoFailures ==> WriterOpen(s, u);
    if id in s.agents { assert AgentOk(s, s.agents[id]); }
    hide Run, NumbersOk, LockOk, NothingLost, WireOk, PairsOk, SoleWriterOwners, SoleReaderOwners;
  }

  // ----- the wire ----------------------------------------------------------

  /** What writer ticket `u` has written so far. */
  function Written(s: State, u: nat): seq<Field> {
    if u < |s.h.chunks| then s.h.chunks[u] else if u == |s.h.chunks| then s.h.cur else []
  }

  /** The stream is what the retired tickets wrote, in ticket order, then what the served
      ticket has written. A retired ticket wrote its whole message, once, or, if its own
      write failed, whole fields of it and perhaps a torn one; the served ticket has written
      such a part so far. */
  lemma WireInTicketOrder(input: seq<InMsg>, acts: seq<Action>)
    ensures var s := Run(input, acts);
            && |s.h.chunks| == s.sh.wServing <= |s.h.purpose|
            && s.h.wire == Flatten(s.h.chunks) + s.h.cur
            && (forall u: nat :: u < s.sh.wServing ==> if u in s.h.broken then WrotePart(s.h, u) else WroteAll(s.h, u))
            && (s.h.cur != [] ==> s.sh.wServing < |s.h.purpose| && WritingPart(s.h, s.sh.wServing))
  {
    hide Run;
    RunKept(input, acts);
    ServedWrites(Run(input, acts));
  }

  /** What is written of a message that is not finished. */
  predicate WritingPart(h: History, u: nat)
    requires u < |h.purpose|
  {
    MessageOf(h, u).Some? && IsPart(h.cur, MessageOf(h, u).value)
  }

  lemma ServedWrites(s: State)
    requires Inv(s)
    ensures s.h.cur != [] ==> s.sh.wServing < |s.h.purpose| && WritingPart(s.h, s.sh.wServing)
  {
    if s.h.cur != [] {
      assert SomeGuard(s);
      var i :| i in s.agents && HoldsWriter(s.agents[i]);
      HolderWrites(s, s.agents[i]);
    }
    hide AgentOk, NothingLost, QueueOk, LockOk, PairsOk, SoleWriterOwners, SoleReaderOwners, WroteAll, WrotePart;
  }

  lemma HolderWrites(s: State, a: Agent)
    requires NumbersOk(s) && AgentOk(s, a) && HoldsWriter(a)
    ensures s.sh.wServing < |s.h.purpose| && WritingPart(s.h, s.sh.wServing)
  {
    assert FAILURE[..|FAILURE|] == FAILURE;
  }

  /** What the peer makes of a message, by the numbers of section 4 of RFC 4254. */
  datatype Heard =
    | Asked(name: string, data: seq<int>) // a request that wants a reply
    | Told(name: string, data: seq<int>)  // one that does not
    | Granted(data: seq<int>)
    | Denied

  function Hears(m: seq<Field>): Option<Heard> {
    if |m| == 4 && m[0] == MsgType(80) && m[1].RequestType? && m[2].WantReply? && m[3].Payload? then
      Some(if m[2].flag then Asked(m[1].name, m[3].data) else Told(m[1].name, m[3].data))
    else if |m| == 2 && m[0] == MsgType(81) && m[1].Payload? then Some(Granted(m[1].data))
    else if m == [MsgType(82)] then Some(Denied)
    else None
  }

  /** What it should make of a decision. */
  function HeardOf(d: Decision): Heard {
    match d
    case Accepted(data) => Granted(data)
    case Rejected => Denied
    case Dropped => Denied
  }

  lemma ReplyHeard(d: Decision)
    ensures Hears(ReplyFields(d)) == Some(HeardOf(d))
  {}

  predicate IsReplyMessage(m: seq<Field>) {
    m != [] && (m[0] == MsgType(81) || m[0] == MsgType(82))
  }

  predicate IsRequestMessage(m: seq<Field>) {
    |m| > 2 && m[0] == MsgType(80) && m[2] == WantReply(true)
  }

  /** The replies among the messages the peer receives. */
  function Replies(ms: seq<seq<Field>>): seq<seq<Field>> {
    if ms == [] then []
    else Replies(ms[..|ms| - 1]) + if IsReplyMessage(ms[|ms| - 1]) then [ms[|ms| - 1]] else []
  }

  /** The requests that want a reply among the messages the peer receives. */
  function Requests(ms: seq<seq<Field>>): seq<seq<Field>> {
    if ms == [] then []
    else Requests(ms[..|ms| - 1]) + if IsRequestMessage(ms[|ms| - 1]) then [ms[|ms| - 1]] else []
  }

  /** No write of the first `n` tickets failed, and all of them are retired. */
  predicate NoneBroken(s: State, n: nat) {
    n <= |s.h.chunks| && forall u :: u in s.h.broken ==> n <= u
  }

  /** The first `n` tickets wrote their whole messages. */
  ghost predicate AllWrote(s: State, n: nat) {
    && n <= |s.h.chunks| <= |s.h.purpose|
    && forall u: nat :: u < n ==> WroteAll(s.h, u)
  }

  lemma UnbrokenWrote(s: State, n: nat)
    requires Inv(s) && NoneBroken(s, n)
    ensures AllWrote(s, n) && NumbersOk(s) && |s.h.chunks| == s.sh.wServing
  {}

  /** The replies on the wire, up to ticket `n`, answer accepted requests 0, 1, 2, ... in turn. */
  lemma {:induction false} RepliesUpTo(s: State, n: nat)
    requires NumbersOk(s) && AllWrote(s, n)
    ensures var rs := Replies(s.h.chunks[..n]);
            && |rs| == |ReplyTickets(s.h.purpose[..n])|
            && forall k :: 0 <= k < |rs| ==> k in s.h.decision && rs[k] == ReplyFields(s.h.decision[k])
  {
    if n > 0 {
      RepliesUpTo(s, n - 1);
      assert s.h.chunks[..n][..n - 1] == s.h.chunks[..n - 1];
      assert s.h.purpose[..n][..n - 1] == s.h.purpose[..n - 1];
      assert WroteAll(s.h, n - 1);
      if s.h.purpose[n - 1].ReplyTo? { ReplyNumber(s, n - 1); }
    }
  }

  lemma ReplyNumber(s: State, u: nat)
    requires NumbersOk(s) && u < |s.h.purpose| && s.h.purpose[u].ReplyTo?
    ensures s.h.purpose[u].k == |ReplyTickets(s.h.purpose[..u])|
  {
    TicketRank(s.h.purpose, u);
    ReplyTicketsBounded(s.h.purpose);
    var k, k' := s.h.purpose[u].k, |ReplyTickets(s.h.purpose[..u])|;
    assert ReplyTickets(s.h.purpose)[k] == u == ReplyTickets(s.h.purpose)[k'];
  }

  lemma {:induction false} ReplyTicketsBounded(p: seq<Purpose>)
    ensures forall i :: 0 <= i < |ReplyTickets(p)| ==> ReplyTickets(p)[i] < |p|
    ensures forall i, j :: 0 <= i < j < |ReplyTickets(p)| ==> ReplyTickets(p)[i] < ReplyTickets(p)[j]
  {
    if p != [] { ReplyTicketsBounded(p[..|p| - 1]); }
  }

  /** A reply ticket stands behind exactly those that were taken before it. */
  lemma {:induction false} TicketRank(p: seq<Purpose>, u: nat)
    requires u < |p| && p[u].ReplyTo?
    ensures |ReplyTickets(p[..u])| < |ReplyTickets(p)|
    ensures ReplyTickets(p)[|ReplyTickets(p[..u])|] == u
  {
    if u < |p| - 1 {
      var q := p[..|p| - 1];
      assert q[..u] == p[..u];
      TicketRank(q, u);
    }
  }

  /** No accept call is between reading a header and taking its writer ticket. */
  ghost predicate NoneAtHeader(s: State) {
    forall j :: j in s.agents ==> !AtHeader(s.agents[j])
  }

  /** As long as the reader is in step with the peer, request k is the k-th one the peer
      sent: the guard that an accept call holds until it has taken its writer ticket keeps
      any other from coming between. At most one request is read and not yet numbered. */
  lemma CallsInArrivalOrder(input: seq<InMsg>, acts: seq<Action>)
    ensures var s := Run(input, acts);
            && s.input == input && s.rpos <= |input| && |s.h.calls| == |ReplyTickets(s.h.purpose)|
            && (s.synced ==>
                  var cs := CallPositions(input[..s.rpos]);
                  && s.h.calls <= cs && |cs| <= |s.h.calls| + 1
                  && (NoneAtHeader(s) ==> cs == s.h.calls))
  {
    hide Run;
    ReaderRun(input, acts);
    var s := Run(input, acts);
    assert CallsOk(s);
    if !NoneAtHeader(s) {
      var j :| j in s.agents && AtHeader(s.agents[j]);
    }
  }

  /** Section 4 of RFC 4254: whatever order handlers answer or drop requests in, the k-th
      reply the peer receives is the one decided for the k-th request it sent: a success with
      the payload of the response, or a failure if it was refused or dropped. This holds in
      front of the first message whose write failed, if any did. */
  lemma RepliesInArrivalOrder(input: seq<InMsg>, acts: seq<Action>, n: nat)
    requires NoneBroken(Run(input, acts), n)
    ensures var s := Run(input, acts);
            var rs, cs := Replies(s.h.chunks[..n]), s.h.calls;
            && Flatten(s.h.chunks[..n]) <= s.h.wire
            && |rs| <= |cs|
            && (forall k :: 0 <= k < |rs| ==>
                  k in s.h.decision && rs[k] == ReplyFields(s.h.decision[k])
                  && Hears(rs[k]) == Some(HeardOf(s.h.decision[k])))
            && (s.synced ==> s.rpos <= |input| && cs <= CallPositions(input[..s.rpos]))
  {
    RunKept(input, acts);
    CallsInArrivalOrder(input, acts);
    var s := Run(input, acts);
    UnbrokenWrote(s, n);
    RepliesUpTo(s, n);
    PrefixRank(s.h.purpose, n);
    FlattenPart(s.h.chunks, n);
    forall d: Decision ensures Hears(ReplyFields(d)) == Some(HeardOf(d)) { ReplyHeard(d); }
    hide Run, Inv, Hears, HeardOf, ReplyFields;
  }

  lemma {:induction false} FlattenPart<T>(ss: seq<seq<T>>, n: nat)
    requires n <= |ss|
    ensures Flatten(ss[..n]) <= Flatten(ss)
  {
    if n < |ss| {
      var init := ss[..|ss| - 1];
      FlattenPart(init, n);
      assert init[..n] == ss[..n];
    } else {
      assert ss[..n] == ss;
    }
  }

  lemma {:induction false} PrefixRank(p: seq<Purpose>, n: nat)
    requires n <= |p|
    ensures |ReplyTickets(p[..n])| <= |ReplyTickets(p)|
  {
    if n < |p| {
      assert p[..|p| - 1][..n] == p[..n];
      PrefixRank(p[..|p| - 1], n);
    } else {
      assert p[..n] == p;
    }
  }

  predicate KeepsDecision(s: State, t: State, k: nat)
    requires k in s.h.decision
  {
    k in t.h.decision && t.h.decision[k] == s.h.decision[k]
  }

  lemma DecisionStep(s: State, a: Action, k: nat)
    requires k in s.h.decision
    requires a.id in s.agents ==> AgentOk(s, s.agents[a.id])
    ensures KeepsDecision(s, Step(s, a), k)
  {
    hide Apart, DoFinishPair, DoDrainTake, DoLoadPoison, DoLoadServing, DoWriteField, DoFinish, DoWriteFails,
         DoStorePoison, DoDropGuard, DoReadAnswer, DoReadFails, DoReadGarbled, DoAccept, DoAcceptFails, DoAcceptGarbled,
         DoTakeReply, DoDecodeOk, DoDropIncoming, DoRespond, DoDropDecoded;
    if a.id !in s.agents {
      StartDecidesNothing(s, a, k);
      hide KeepsDecision, Step;
    } else {
      assert AtHeader(s.agents[a.id]) ==> s.agents[a.id].rpc.RHeld?;
      if IsAside(a) {
        StepsAside(s, a);
      } else {
        ReadsKeepDecisions(s, a, k);
        HandlesKeepDecisions(s, a, k);
      }
    }
    hide AgentOk;
  }

  lemma StartDecidesNothing(s: State, a: Action, k: nat)
    requires k in s.h.decision && a.id !in s.agents
    ensures KeepsDecision(s, Step(s, a), k)
  {}

  lemma ReadsKeepDecisions(s: State, a: Action, k: nat)
    requires a.id in s.agents && k in s.h.decision
    ensures KeepsDecision(s, DoReadAnswer(s, a.id), k) && KeepsDecision(s, DoReadFails(s, a.id), k)
    ensures a.ReadGarbled? ==> KeepsDecision(s, DoReadGarbled(s, a.id, a.v), k)
    ensures KeepsDecision(s, DoAccept(s, a.id), k) && KeepsDecision(s, DoTakeReply(s, a.id), k)
    ensures a.AcceptGarbled? ==> KeepsDecision(s, DoAcceptGarbled(s, a.id, a.wantReply), k)
  {}

  lemma HandlesKeepDecisions(s: State, a: Action, k: nat)
    requires a.id in s.agents && k in s.h.decision
    requires s.agents[a.id].Decoded? ==> s.agents[a.id].k != k
    ensures KeepsDecision(s, DoFinishPair(s, a.id), k)
    ensures KeepsDecision(s, DoDecodeOk(s, a.id), k) && KeepsDecision(s, DoDropGuard(s, a.id), k)
    ensures a.Respond? ==> KeepsDecision(s, DoRespond(s, a.id, a.decision), k)
    ensures KeepsDecision(s, DoDropDecoded(s, a.id), k)
  {}

  /** A decision is taken once: the reply that is sent is the one that was decided first. */
  lemma DecisionsStand(input: seq<InMsg>, acts: seq<Action>, a: Action, k: nat)
    requires k in Run(input, acts).h.decision
    ensures var s := Run(input, acts);
            k in Step(s, a).h.decision && Step(s, a).h.decision[k] == s.h.decision[k]
  {
    RunKept(input, acts);
    var s := Run(input, acts);
    assert a.id in s.agents ==> AgentOk(s, s.agents[a.id]);
    DecisionStep(s, a, k);
    hide Step, Run;
  }

  /** When everything accepted has been retired, every request the peer sent got its reply. */
  lemma EveryCallAnswered(input: seq<InMsg>, acts: seq<Action>)
    requires var s := Run(input, acts);
             s.h.broken == {} && s.synced && s.sh.wServing == s.sh.wNext && NoneAtHeader(s)
    ensures var s := Run(input, acts);
            s.rpos <= |input| && |Replies(s.h.chunks)| == |CallPositions(input[..s.rpos])|
  {
    RunKept(input, acts);
    CallsInArrivalOrder(input, acts);
    var s := Run(input, acts);
    UnbrokenWrote(s, |s.h.chunks|);
    RepliesUpTo(s, |s.h.chunks|);
    assert s.h.chunks[..|s.h.chunks|] == s.h.chunks;
    assert s.h.purpose[..|s.h.chunks|] == s.h.purpose;
    hide Run, Inv;
  }

  // ----- request/response pairing ------------------------------------------

  /** Two outgoing requests are written and have their answers read in the same order. */
  lemma TicketPairsAgree(input: seq<InMsg>, acts: seq<Action>, i: nat, j: nat)
    requires i < |Run(input, acts).h.pairs| && j < |Run(input, acts).h.pairs|
    ensures var ps := Run(input, acts).h.pairs;
            && (ps[i].0 < ps[j].0 <==> ps[i].1 < ps[j].1)
            && (ps[i].0 < ps[j].0 <==> i < j)
  {
    hide Run, NumbersOk, AgentsOk, QueueOk, LockOk, NothingLost, WireOk, RequestTickets;
    RunKept(input, acts);
    var ps := Run(input, acts).h.pairs;
    assert i < j ==> ps[i].0 < ps[j].0 && ps[i].1 < ps[j].1;
    assert j < i ==> ps[j].0 < ps[i].0 && ps[j].1 < ps[i].1;
  }

  /** The requests on the wire are those of the request tickets, in turn. */
  lemma {:induction false} RequestsUpTo(s: State, n: nat)
    requires AllWrote(s, n)
    ensures var qs := Requests(s.h.chunks[..n]); var ts := RequestTickets(s.h.purpose[..n]);
            && |qs| == |ts|
            && forall k :: 0 <= k < |qs| ==> ts[k] < n && qs[k] == s.h.chunks[ts[k]]
  {
    if n > 0 {
      RequestsUpTo(s, n - 1);
      assert s.h.chunks[..n][..n - 1] == s.h.chunks[..n - 1];
      assert s.h.purpose[..n][..n - 1] == s.h.purpose[..n - 1];
      assert WroteAll(s.h, n - 1);
    }
  }

  lemma {:induction false} RequestTicketsPrefix(p: seq<Purpose>, n: nat)
    requires n <= |p|
    ensures RequestTickets(p[..n]) <= RequestTickets(p)
  {
    if n < |p| {
      assert p[..|p| - 1][..n] == p[..n];
      RequestTicketsPrefix(p[..|p| - 1], n);
    } else {
      assert p[..n] == p;
    }
  }

  /** The k-th outgoing request is given the k-th answer the peer sends, whatever requests of
      the peer's own are read and accepted in between: as long as the reader is in step, which
      it stays until a message is of the wrong kind or does not decode. With no failed write
      up to it, that request is the k-th one the peer receives. */
  lemma AnswersPaired(input: seq<InMsg>, acts: seq<Action>, k: nat)
    requires Run(input, acts).synced && Run(input, acts).rpos <= |input|
    requires k < |Answers(input[..Run(input, acts).rpos])|
    ensures var s := Run(input, acts); var ts := RequestTickets(s.h.purpose);
            && k < |ts| && ts[k] < |s.h.chunks|
            && ts[k] in s.h.delivered && s.h.delivered[ts[k]] == Answers(input[..s.rpos])[k]
            && (NoneBroken(s, ts[k] + 1) ==>
                  var qs := Requests(s.h.chunks[..ts[k] + 1]); k < |qs| && qs[k] == s.h.chunks[ts[k]])
  {
    hide Run, Answers, RequestTickets, Requests;
    RunKept(input, acts);
    ReaderRun(input, acts);
    var s := Run(input, acts);
    PairAnswered(s, k);
    if NoneBroken(s, RequestTickets(s.h.purpose)[k] + 1) {
      RequestReceived(s, k);
    }
    hide Inv, ReaderOk;
  }

  lemma PairAnswered(s: State, k: nat)
    requires Inv(s) && AnswersOk(s) && s.synced && k < |Answers(s.input[..s.rpos])|
    ensures var ts := RequestTickets(s.h.purpose);
            && k < |ts| && ts[k] < |s.h.chunks|
            && ts[k] in s.h.delivered && s.h.delivered[ts[k]] == Answers(s.input[..s.rpos])[k]
  {
    assert RequestTickets(s.h.purpose)[k] == s.h.pairs[k].0;
    hide NumbersOk, AgentsOk, QueueOk, LockOk, NothingLost, Answers, RequestTickets, WroteAll, WrotePart;
  }

  lemma RequestReceived(s: State, k: nat)
    requires Inv(s) && k < |RequestTickets(s.h.purpose)| && NoneBroken(s, RequestTickets(s.h.purpose)[k] + 1)
    ensures var t := RequestTickets(s.h.purpose)[k];
            var qs := Requests(s.h.chunks[..t + 1]); k < |qs| && qs[k] == s.h.chunks[t]
  {
    var n := RequestTickets(s.h.purpose)[k] + 1;
    UnbrokenWrote(s, n);
    RequestsUpTo(s, n);
    RequestTicketsPrefix(s.h.purpose, n);
    AllEarlierTickets(s.h.purpose, n, k);
    hide Inv, Requests, RequestTickets;
  }

  /** Request tickets below `n` are among the tickets of the first `n` purposes. */
  lemma {:induction false} AllEarlierTickets(p: seq<Purpose>, n: nat, k: nat)
    requires n <= |p| && k < |RequestTickets(p)| && RequestTickets(p)[k] < n
    ensures k < |RequestTickets(p[..n])|
  {
    if n < |p| {
      var q := p[..|p| - 1];
      assert q[..n] == p[..n];
      AllEarlierTickets(q, n, k);
    } else {
      assert p[..n] == p;
    }
  }

  /** A run against a peer that only answers, with no accept call and no decode error. */
  predicate AnswersOnly(input: seq<InMsg>, acts: seq<Action>) {
    && (forall m :: m in input ==> m.Answer?)
    && (forall a :: a in acts ==> !a.StartAccept? && !a.ReadFails?)
  }

  /** Nobody accepts, and the reader is in step. */
  ghost predicate OnlyAnswers(s: State) {
    s.synced && (forall j :: j in s.agents ==> !IsAccept(s.agents[j])) && forall m :: m in s.input ==> m.Answer?
  }

  lemma AnswersStep(s: State, a: Action)
    requires OnlyAnswers(s) && !a.StartAccept? && !a.ReadFails?
    ensures OnlyAnswers(Step(s, a))
  {
    if a.id in s.agents && IsAside(a) {
      AnswersAside(s, a);
    } else {
      AnswersRead(s, a);
    }
    hide Step, OnlyAnswers;
  }

  lemma AnswersAside(s: State, a: Action)
    requires OnlyAnswers(s) && a.id in s.agents && IsAside(a)
    ensures OnlyAnswers(Step(s, a))
  {}

  lemma AnswersRead(s: State, a: Action)
    requires OnlyAnswers(s) && !a.StartAccept? && !a.ReadFails?
    requires a.id !in s.agents || !IsAside(a)
    ensures OnlyAnswers(Step(s, a))
  {}

  lemma {:induction false} AnswersOnlyInStep(input: seq<InMsg>, acts: seq<Action>)
    requires AnswersOnly(input, acts)
    ensures Run(input, acts).synced
    ensures OnlyAnswers(Run(input, acts))
  {
    hide Step;
    if acts != [] {
      var acts' := acts[..|acts| - 1];
      AnswersOnlyInStep(input, acts');
      assert acts[|acts| - 1] in acts;
      AnswersStep(Run(input, acts'), acts[|acts| - 1]);
    }
  }
}
