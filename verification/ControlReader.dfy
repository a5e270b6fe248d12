/**
 What the reader's guard keeps in step: requests are accepted in the order they arrive, and
 answers go to the requests in the order these were written, however the two are mixed.
 */
module ControlReader {
  import opened Prelude
  import opened ControlStream
  import opened ControlInvariant
  import opened ControlTestSteps
  import opened ControlWriteSteps

  // ----- what has been read ------------------------------------------------

  /** Where among `ms` the requests are that want a reply. */
  function CallPositions(ms: seq<InMsg>): seq<nat> {
    if ms == [] then []
    else CallPositions(ms[..|ms| - 1]) + if ms[|ms| - 1] == Call(true) then [|ms| - 1] else []
  }

  /** The answers among `ms`. */
  function Answers(ms: seq<InMsg>): seq<int> {
    if ms == [] then []
    else Answers(ms[..|ms| - 1]) + if ms[|ms| - 1].Answer? then [ms[|ms| - 1].v] else []
  }

  lemma ReadOne(ms: seq<InMsg>, n: nat)
    requires n < |ms|
    ensures CallPositions(ms[..n + 1]) == CallPositions(ms[..n]) + if ms[n] == Call(true) then [n] else []
    ensures Answers(ms[..n + 1]) == Answers(ms[..n]) + if ms[n].Answer? then [ms[n].v] else []
  {
    assert ms[..n + 1][..n] == ms[..n];
  }

  /** accept_global_request has read the header of a request that wants a reply, and takes its ticket next. */
  predicate AtHeader(a: Agent) {
    a.Reader? && a.rjob.HeaderRead? && a.rjob.wantReply
  }

  predicate IsAccept(a: Agent) {
    a.Reader? && !a.rjob.Response?
  }

  /** A ticket of an accept call is not the read ticket of an outgoing request. */
  ghost predicate NoPair(s: State) {
    forall j, i :: j in s.agents && IsAccept(s.agents[j]) && 0 <= i < |s.h.pairs| ==> s.h.pairs[i].1 != s.agents[j].r
  }

  /** The accepted requests are those read so far, but for one whose handle is being made. */
  ghost predicate CallsOk(s: State) {
    && s.rpos <= |s.input| && |s.h.calls| == |ReplyTickets(s.h.purpose)|
    && (s.synced ==>
          && (forall j :: j in s.agents && AtHeader(s.agents[j]) ==>
                CallPositions(s.input[..s.rpos]) == s.h.calls + [s.agents[j].rjob.at])
          && ((forall j :: j in s.agents ==> !AtHeader(s.agents[j])) ==>
                CallPositions(s.input[..s.rpos]) == s.h.calls))
  }

  /** The answers read so far went to the first pairs, in turn. */
  predicate AnswersOk(s: State) {
    s.rpos <= |s.input| &&
    (s.synced ==>
       var vs := Answers(s.input[..s.rpos]);
       && |vs| <= |s.h.pairs|
       && (forall i :: 0 <= i < |s.h.pairs| ==> (s.h.pairs[i].1 < s.sh.rServing <==> i < |vs|))
       && (forall i :: 0 <= i < |vs| ==>
             && s.h.pairs[i].0 < s.sh.wServing
             && s.h.pairs[i].0 in s.h.delivered && s.h.delivered[s.h.pairs[i].0] == vs[i]))
  }

  ghost predicate ReaderOk(s: State) {
    NoPair(s) && CallsOk(s) && AnswersOk(s)
  }

  // ----- steps that read nothing -------------------------------------------

  ghost predicate OnlyMoves(s: State, s': State, id: nat) {
    forall i :: i != id ==> (i in s.agents <==> i in s'.agents) && (i in s.agents ==> s'.agents[i] == s.agents[i])
  }

  /** Agent `id` moves and accepts nothing: it is gone, or what it was for the reader. */
  ghost predicate SameReader(s: State, s': State, id: nat) {
    && OnlyMoves(s, s', id)
    && s'.input == s.input && s'.rpos == s.rpos && s'.h.pairs == s.h.pairs && s'.h.calls == s.h.calls
    && ReplyTickets(s'.h.purpose) == ReplyTickets(s.h.purpose)
    && (id in s'.agents && IsAccept(s'.agents[id]) ==>
          id in s.agents && IsAccept(s.agents[id]) && s.agents[id].r == s'.agents[id].r)
  }

  /** ... and it has no part in what is read. */
  ghost predicate Apart(s: State, s': State, id: nat) {
    && SameReader(s, s', id)
    && (s'.synced ==> s.synced)
    && s'.h.delivered == s.h.delivered
    && s'.sh.rServing == s.sh.rServing && s.sh.wServing <= s'.sh.wServing
    && (id in s'.agents && AtHeader(s'.agents[id]) ==> id in s.agents && s.agents[id] == s'.agents[id])
    && (id in s.agents && AtHeader(s.agents[id]) ==> id in s'.agents && AtHeader(s'.agents[id]))
  }

  /** No request is decided either. */
  ghost predicate Aside(s: State, s': State, id: nat) {
    Apart(s, s', id) && s'.h.decision == s.h.decision
  }

  lemma DrainTakeAside(s: State, id: nat)
    requires id in s.agents
    ensures Aside(s, DoDrainTake(s, id), id)
  {}

  lemma LoadPoisonAside(s: State, id: nat)
    requires id in s.agents && !AtHeader(s.agents[id])
    ensures Aside(s, DoLoadPoison(s, id), id)
  {}

  lemma LoadServingAside(s: State, id: nat)
    requires id in s.agents && !AtHeader(s.agents[id])
    ensures Aside(s, DoLoadServing(s, id), id)
  {}

  lemma LoopAside(s: State, a: Action)
    requires a.id in s.agents && (a.DrainLoad? || a.Wake?)
    ensures Aside(s, Step(s, a), a.id)
  {}

  lemma WriteFieldAside(s: State, id: nat)
    requires id in s.agents
    ensures Aside(s, DoWriteField(s, id), id)
  {}

  lemma MessageFailsAside(s: State, id: nat, torn: bool)
    requires id in s.agents && s.agents[id].Writer? && !s.agents[id].pc.DrainHeld?
    ensures Aside(s, DoWriteFails(s, id, torn), id)
  {}

  lemma DrainFailsAside(s: State, id: nat, torn: bool)
    requires id in s.agents && s.agents[id].Writer? && s.agents[id].pc.DrainHeld?
    ensures Aside(s, DoWriteFails(s, id, torn), id)
  {}

  lemma WriteFailsAside(s: State, id: nat, torn: bool)
    requires id in s.agents
    ensures Aside(s, DoWriteFails(s, id, torn), id)
  {
    if s.agents[id].Writer? {
      if s.agents[id].pc.DrainHeld? {
        DrainFailsAside(s, id, torn);
      } else {
        MessageFailsAside(s, id, torn);
      }
      hide Aside, DoWriteFails;
    }
  }

  lemma MessageFinishAside(s: State, id: nat)
    requires id in s.agents && s.agents[id].Writer? && s.agents[id].pc.Held?
    ensures Aside(s, DoFinish(s, id), id)
  {}

  lemma FinishAside(s: State, id: nat)
    requires id in s.agents
    ensures Aside(s, DoFinish(s, id), id)
  {
    if s.agents[id].Writer? && s.agents[id].pc.Held? {
      MessageFinishAside(s, id);
      hide Aside, DoFinish;
    }
  }

  lemma StorePoisonAside(s: State, id: nat)
    requires id in s.agents && !AtHeader(s.agents[id])
    ensures Aside(s, DoStorePoison(s, id), id)
  {}

  lemma DropGuardAside(s: State, id: nat)
    requires id in s.agents && !s.agents[id].Reader?
    ensures Aside(s, DoDropGuard(s, id), id)
  {}

  lemma ErrorsAside(s: State, id: nat)
    requires id in s.agents && !AtHeader(s.agents[id])
    ensures Aside(s, DoAcceptFails(s, id), id)
    ensures Aside(s, DoDropIncoming(s, id), id)
  {}

  lemma RepliesApart(s: State, id: nat, d: Decision)
    requires id in s.agents && !AtHeader(s.agents[id])
    ensures Apart(s, DoRespond(s, id, d), id)
    ensures Apart(s, DoDropDecoded(s, id), id)
  {}

  lemma StartApart(s: State, a: Action)
    requires a.StartRequest? || a.StartNotice?
    ensures Apart(s, Step(s, a), a.id)
  {
    if a.StartRequest? {
      TakeApart(s, a.id, OutRequest(a.name, a.data), Some(a.id), Pairing(s.sh.wNext, a.name, a.data));
    } else {
      TakeApart(s, a.id, OutNotice(a.name, a.data), s.lock, Writer(s.sh.wNext, Notice(a.name, a.data), Loop));
    }
    hide Apart, Take;
  }

  lemma TakeApart(s: State, id: nat, p: Purpose, lock: Option<nat>, g: Agent)
    requires !p.ReplyTo? && (g.Pairing? || g.Writer?)
    ensures Apart(s, s, id)
    ensures id !in s.agents ==> Apart(s, Put(Take(s, p).(lock := lock), id, g), id)
  {
    PurposeAppended(s.h.purpose, p);
    hide ReplyTickets;
  }

  /** A step that stands apart keeps what the reader's guard keeps. */
  lemma ApartKept(s: State, s': State, id: nat)
    requires ReaderOk(s) && Apart(s, s', id)
    ensures ReaderOk(s')
  {
    assert (forall j :: j in s'.agents ==> !AtHeader(s'.agents[j]))
           ==> (forall j :: j in s.agents ==> !AtHeader(s.agents[j]));
    forall j | j in s'.agents && AtHeader(s'.agents[j])
      ensures j in s.agents && s.agents[j] == s'.agents[j]
    {}
    hide CallPositions, Answers, ReplyTickets;
  }

  /** Out of step there is little to keep. */
  lemma UnsyncedKept(s: State, s': State, id: nat)
    requires ReaderOk(s) && SameReader(s, s', id) && !s'.synced
    ensures ReaderOk(s')
  {
    hide CallPositions, Answers, ReplyTickets;
  }

  // ----- steps that read ---------------------------------------------------

  /** Whoever holds the reader guard is the only one. */
  lemma SoleReader(s: State, id: nat)
    requires Inv(s) && id in s.agents && HoldsReader(s.agents[id])
    ensures s.agents[id].r == s.sh.rServing < s.sh.rNext
    ensures forall j :: j in s.agents && j != id ==> !HoldsReader(s.agents[j]) && !AtHeader(s.agents[j])
  {
    assert AgentOk(s, s.agents[id]);
    assert OwnsReader(s.agents[id], s.sh.rServing);
    forall j | j in s.agents && j != id
      ensures !HoldsReader(s.agents[j]) && !AtHeader(s.agents[j])
    {
      assert AgentOk(s, s.agents[j]);
      assert !OwnsReader(s.agents[j], s.sh.rServing);
    }
    hide NumbersOk, QueueOk, LockOk, NothingLost, WireOk, PairsOk, SoleWriterOwners;
  }

  lemma StartAcceptReads(s: State, id: nat)
    requires Inv(s) && ReaderOk(s)
    ensures ReaderOk(Step(s, StartAccept(id)))
  {
    var s' := Step(s, StartAccept(id));
    assert PairsOk(s);
    assert OnlyMoves(s, s', id);
    assert (forall j :: j in s'.agents ==> !AtHeader(s'.agents[j]))
           ==> (forall j :: j in s.agents ==> !AtHeader(s.agents[j])) by {
      assert forall j :: j in s.agents ==> j in s'.agents && s'.agents[j] == s.agents[j];
    }
    hide Inv, CallPositions, Answers, ReplyTickets;
  }

  lemma FinishPairReads(s: State, id: nat)
    requires Inv(s) && ReaderOk(s) && id in s.agents
    ensures ReaderOk(DoFinishPair(s, id))
  {
    var s' := DoFinishPair(s, id);
    if s' != s {
      assert forall j :: j in s.agents && IsAccept(s.agents[j]) ==> s.agents[j].r < s.sh.rNext by {
        forall j | j in s.agents && IsAccept(s.agents[j])
          ensures s.agents[j].r < s.sh.rNext
        {
          assert AgentOk(s, s.agents[j]);
        }
      }
      assert s.sh.rServing <= s.sh.rNext;
      PairReads(s, s', id);
    }
    hide Inv, ReaderOk;
  }

  lemma PairReads(s: State, s': State, id: nat)
    requires ReaderOk(s) && s.sh.rServing <= s.sh.rNext && id in s.agents && s' == DoFinishPair(s, id) && s' != s
    requires forall j :: j in s.agents && IsAccept(s.agents[j]) ==> s.agents[j].r < s.sh.rNext
    ensures ReaderOk(s')
  {
    assert forall j :: j in s.agents && AtHeader(s.agents[j]) ==> j in s'.agents && s'.agents[j] == s.agents[j];
    assert forall j :: j in s'.agents && j != id ==> j in s.agents && s'.agents[j] == s.agents[j];
    hide CallPositions, Answers, ReplyTickets;
  }

  /** The answer that is read next is for the first pair without one. */
  lemma NextPair(s: State, id: nat) returns (i: nat)
    requires Inv(s) && AnswersOk(s) && s.synced
    requires id in s.agents && s.agents[id].Reader? && s.agents[id].rpc.RHeld? && s.agents[id].rjob.Response?
    ensures i == |Answers(s.input[..s.rpos])| < |s.h.pairs|
    ensures s.h.pairs[i] == (s.agents[id].rjob.w, s.sh.rServing) && s.h.pairs[i].0 < s.sh.wServing
    ensures forall j :: 0 <= j < |s.h.pairs| ==> (s.h.pairs[j].1 < s.sh.rServing + 1 <==> j < i + 1)
    ensures forall j :: 0 <= j < i ==> s.h.pairs[j].0 != s.h.pairs[i].0
  {
    var g := s.agents[id];
    assert AgentOk(s, g);
    i :| 0 <= i < |s.h.pairs| && s.h.pairs[i] == (g.rjob.w, g.r);
    var n := |Answers(s.input[..s.rpos])|;
    assert s.h.pairs[i].1 == s.sh.rServing;
    assert n < |s.h.pairs| ==> s.h.pairs[n].1 >= s.sh.rServing;
    hide NumbersOk, AgentsOk, QueueOk, LockOk, NothingLost, WireOk, Answers, RequestTickets;
  }

  lemma AnswerReads(s: State, id: nat)
    requires Inv(s) && ReaderOk(s) && id in s.agents
    ensures ReaderOk(DoReadAnswer(s, id))
  {
    var g, s' := s.agents[id], DoReadAnswer(s, id);
    if s' != s {
      if s'.synced {
        var i := NextPair(s, id);
        ReadOne(s.input, s.rpos);
        SoleReader(s, id);
        AnswerTaken(s, s', id, i);
      } else {
        UnsyncedKept(s, s', id);
      }
    }
    hide Inv, ReaderOk, CallPositions, Answers;
  }

  lemma AnswerTaken(s: State, s': State, id: nat, i: nat)
    requires ReaderOk(s) && id in s.agents && s.synced && s.rpos < |s.input| && s.input[s.rpos].Answer?
    requires i == |Answers(s.input[..s.rpos])| < |s.h.pairs| && s.h.pairs[i].0 < s.sh.wServing
    requires forall j :: 0 <= j < |s.h.pairs| ==> (s.h.pairs[j].1 < s.sh.rServing + 1 <==> j < i + 1)
    requires forall j :: 0 <= j < i ==> s.h.pairs[j].0 != s.h.pairs[i].0
    requires !AtHeader(s.agents[id])
    requires var delivered := s.h.delivered[s.h.pairs[i].0 := s.input[s.rpos].v];
             s' == Remove(ReleaseReader(s.(rpos := s.rpos + 1, h := s.h.(delivered := delivered))), id)
    requires CallPositions(s.input[..s.rpos + 1]) == CallPositions(s.input[..s.rpos])
    requires Answers(s.input[..s.rpos + 1]) == Answers(s.input[..s.rpos]) + [s.input[s.rpos].v]
    ensures ReaderOk(s')
  {
    assert forall j :: j in s.agents && AtHeader(s.agents[j]) ==> j in s'.agents && s'.agents[j] == s.agents[j];
    hide CallPositions, Answers, ReplyTickets;
  }

  lemma NoAnswerReads(s: State, id: nat, v: int)
    requires Inv(s) && ReaderOk(s) && id in s.agents
    ensures ReaderOk(DoReadFails(s, id)) && ReaderOk(DoReadGarbled(s, id, v))
  {
    if DoReadFails(s, id) != s {
      UnsyncedKept(s, DoReadFails(s, id), id);
    }
    if DoReadGarbled(s, id, v) != s {
      UnsyncedKept(s, DoReadGarbled(s, id, v), id);
    }
    hide Inv, ReaderOk;
  }

  lemma AcceptReads(s: State, id: nat)
    requires Inv(s) && ReaderOk(s) && id in s.agents
    ensures ReaderOk(DoAccept(s, id))
  {
    var s' := DoAccept(s, id);
    if s' != s {
      if s'.synced {
        SoleReader(s, id);
        ReadOne(s.input, s.rpos);
        HeaderTaken(s, s', id);
      } else {
        UnsyncedKept(s, s', id);
      }
    }
    hide Inv, ReaderOk, CallPositions, Answers;
  }

  lemma HeaderTaken(s: State, s': State, id: nat)
    requires ReaderOk(s) && id in s.agents && s.synced && s.rpos < |s.input| && s.input[s.rpos].Call?
    requires IsAccept(s.agents[id]) && !AtHeader(s.agents[id])
    requires s' == Put(s.(rpos := s.rpos + 1), id,
                       Reader(s.agents[id].r, HeaderRead(s.input[s.rpos].wantReply, s.rpos), RHeld))
    requires forall j :: j in s.agents ==> !AtHeader(s.agents[j])
    requires CallPositions(s.input[..s.rpos + 1]) ==
             CallPositions(s.input[..s.rpos]) + if s.input[s.rpos] == Call(true) then [s.rpos] else []
    requires Answers(s.input[..s.rpos + 1]) == Answers(s.input[..s.rpos])
    ensures ReaderOk(s')
  {
    assert s'.agents[id].rjob.wantReply ==> AtHeader(s'.agents[id]);
    hide CallPositions, Answers, ReplyTickets;
  }

  lemma GarbledReads(s: State, id: nat, wantReply: bool)
    requires Inv(s) && ReaderOk(s) && id in s.agents
    ensures ReaderOk(DoAcceptGarbled(s, id, wantReply))
  {
    var s' := DoAcceptGarbled(s, id, wantReply);
    if s' != s {
      UnsyncedKept(s, s', id);
    }
    hide Inv, ReaderOk;
  }

  lemma TakeReplyReads(s: State, id: nat)
    requires Inv(s) && ReaderOk(s) && id in s.agents
    ensures ReaderOk(DoTakeReply(s, id))
  {
    var g, s' := s.agents[id], DoTakeReply(s, id);
    if s' != s {
      SoleReader(s, id);
      if AtHeader(g) {
        PurposeAppended(s.h.purpose, ReplyTo(|ReplyTickets(s.h.purpose)|));
        ReplyReads(s, s', id);
      } else {
        NoticeReads(s, s', id);
      }
    }
    hide Inv, ReaderOk, ReplyTickets;
  }

  lemma ReplyReads(s: State, s': State, id: nat)
    requires ReaderOk(s) && id in s.agents && AtHeader(s.agents[id]) && s.agents[id].rpc.RHeld?
    requires s' == DoTakeReply(s, id)
    requires forall j :: j in s.agents && j != id ==> !AtHeader(s.agents[j])
    requires |ReplyTickets(s'.h.purpose)| == |ReplyTickets(s.h.purpose)| + 1
    ensures ReaderOk(s')
  {
    hide CallPositions, Answers, ReplyTickets;
  }

  lemma NoticeReads(s: State, s': State, id: nat)
    requires ReaderOk(s) && id in s.agents && IsAccept(s.agents[id]) && !AtHeader(s.agents[id])
    requires s' == Put(s, id, Reader(s.agents[id].r, NoticeHeld, RHeld))
    ensures ReaderOk(s')
  {
    ApartKept(s, s', id);
  }

  /** A handle gives the reader guard back: its ticket is in no pair. */
  lemma HandleReads(s: State, s': State, id: nat)
    requires Inv(s) && ReaderOk(s) && id in s.agents && HoldsReader(s.agents[id])
    requires IsAccept(s.agents[id]) && !AtHeader(s.agents[id])
    requires s' == ReleaseReader(s).(agents := s'.agents) && OnlyMoves(s, s', id)
    requires id in s'.agents ==> !IsAccept(s'.agents[id])
    ensures ReaderOk(s')
  {
    SoleReader(s, id);
    assert forall j :: j in s.agents && AtHeader(s.agents[j]) ==> j in s'.agents && s'.agents[j] == s.agents[j];
    hide Inv, CallPositions, Answers, ReplyTickets;
  }

  lemma ReleaseReads(s: State, id: nat)
    requires Inv(s) && ReaderOk(s) && id in s.agents
    ensures ReaderOk(DoDecodeOk(s, id))
    ensures ReaderOk(DoDropGuard(s, id))
  {
    var g := s.agents[id];
    assert AgentOk(s, g);
    if DoDecodeOk(s, id) != s {
      HandleReads(s, DoDecodeOk(s, id), id);
    }
    if g.Reader? {
      if DoDropGuard(s, id) != s {
        HandleReads(s, DoDropGuard(s, id), id);
      }
    } else {
      DropGuardAside(s, id);
      ApartKept(s, DoDropGuard(s, id), id);
    }
    hide Inv, ReaderOk;
  }

  // ----- all steps ---------------------------------------------------------

  /** The steps of an agent that stand apart. */
  predicate IsAside(a: Action) {
    || a.DrainLoad? || a.Wake? || a.DrainTake? || a.LoadPoison? || a.LoadServing? || a.WriteField?
    || a.WriteFails? || a.Finish? || a.StorePoison? || a.AcceptFails? || a.DropIncoming?
  }

  lemma StepsAside(s: State, a: Action)
    requires IsAside(a) && a.id in s.agents
    requires !AtHeader(s.agents[a.id]) || s.agents[a.id].rpc.RHeld?
    ensures Step(s, a) == s || Aside(s, Step(s, a), a.id)
  {
    if AtHeader(s.agents[a.id]) {
      HeaderWaits(s, a);
    } else {
      match a
      case DrainLoad(_) => LoopAside(s, a);
      case Wake(_) => LoopAside(s, a);
      case DrainTake(id) => DrainTakeAside(s, id);
      case LoadPoison(id) => LoadPoisonAside(s, id);
      case LoadServing(id) => LoadServingAside(s, id);
      case WriteField(id) => WriteFieldAside(s, id);
      case WriteFails(id, torn) => WriteFailsAside(s, id, torn);
      case Finish(id) => FinishAside(s, id);
      case StorePoison(id) => StorePoisonAside(s, id);
      case AcceptFails(id) => ErrorsAside(s, id);
      case DropIncoming(id) => ErrorsAside(s, id);
    }
    hide Aside, AtHeader, DoDrainTake, DoLoadPoison, DoLoadServing, DoWriteField, DoFinish, DoWriteFails, DoStorePoison,
         DoAcceptFails, DoDropIncoming, Put;
  }

  /** An agent at a header takes its ticket next; nothing else moves it. */
  lemma HeaderWaits(s: State, a: Action)
    requires IsAside(a) && a.id in s.agents && AtHeader(s.agents[a.id]) && s.agents[a.id].rpc.RHeld?
    ensures Step(s, a) == s
  {}

  lemma ReaderKept(s: State, a: Action)
    requires Inv(s) && ReaderOk(s)
    ensures ReaderOk(Step(s, a))
  {
    if a.id in s.agents {
      assert AgentOk(s, s.agents[a.id]);
      hide Inv, ReaderOk, Apart, AgentOk;
      AgentKept(s, a);
    } else if a.StartRequest? || a.StartNotice? {
      StartApart(s, a);
      ApartKept(s, Step(s, a), a.id);
    } else if a.StartAccept? {
      StartAcceptReads(s, a.id);
    }
    hide Inv, ReaderOk, Apart;
  }

  lemma AgentKept(s: State, a: Action)
    requires Inv(s) && ReaderOk(s) && a.id in s.agents && AgentOk(s, s.agents[a.id])
    ensures ReaderOk(Step(s, a))
  {
    assert AtHeader(s.agents[a.id]) ==> s.agents[a.id].rpc.RHeld?;
    hide Inv, ReaderOk, Apart, AgentOk, DoFinishPair, DoDrainTake, DoLoadPoison, DoLoadServing, DoWriteField, DoFinish,
         DoWriteFails, DoStorePoison, DoDropGuard, DoReadAnswer, DoReadFails, DoReadGarbled, DoAccept, DoAcceptFails,
         DoAcceptGarbled, DoTakeReply, DoDecodeOk, DoDropIncoming, DoRespond, DoDropDecoded;
    if IsAside(a) {
      StepsAside(s, a);
      if Step(s, a) != s {
        ApartKept(s, Step(s, a), a.id);
      }
      hide Step;
    } else {
      AgentReads(s, a);
    }
  }

  lemma AgentReads(s: State, a: Action)
    requires Inv(s) && ReaderOk(s) && a.id in s.agents && !IsAside(a)
    ensures ReaderOk(Step(s, a))
  {
    match a
    case FinishPair(id) => FinishPairReads(s, id);
    case ReadAnswer(id) => AnswerReads(s, id);
    case ReadFails(id) => NoAnswerReads(s, id, 0);
    case ReadGarbled(id, v) => NoAnswerReads(s, id, v);
    case Accept(id) => AcceptReads(s, id);
    case AcceptGarbled(id, wantReply) => GarbledReads(s, id, wantReply);
    case TakeReply(id) => TakeReplyReads(s, id);
    case DecodeOk(id) => ReleaseReads(s, id);
    case DropGuard(id) => ReleaseReads(s, id);
    case Respond(id, d) => ReplyKept(s, id, d);
    case DropDecoded(id) => ReplyKept(s, id, Dropped);
    case _ =>
    hide Inv, ReaderOk, DoFinishPair, DoDrainTake, DoLoadPoison, DoLoadServing, DoWriteField, DoFinish,
         DoWriteFails, DoStorePoison, DoDropGuard, DoReadAnswer, DoReadFails, DoReadGarbled, DoAccept, DoAcceptFails,
         DoAcceptGarbled, DoTakeReply, DoDecodeOk, DoDropIncoming, DoRespond, DoDropDecoded;
  }

  lemma ReplyKept(s: State, id: nat, d: Decision)
    requires ReaderOk(s) && id in s.agents
    ensures ReaderOk(DoRespond(s, id, d)) && ReaderOk(DoDropDecoded(s, id))
  {
    if !AtHeader(s.agents[id]) {
      RepliesApart(s, id, d);
      ApartKept(s, DoRespond(s, id, d), id);
      ApartKept(s, DoDropDecoded(s, id), id);
    }
    hide ReaderOk, Apart;
  }

  /** The peer's messages are given from the start. */
  lemma InputStays(s: State, a: Action)
    ensures Step(s, a).input == s.input
  {}

  lemma InitReads(input: seq<InMsg>)
    ensures ReaderOk(Init(input))
  {
    assert input[..0] == [];
  }

  lemma {:induction false} ReaderRun(input: seq<InMsg>, acts: seq<Action>)
    ensures ReaderOk(Run(input, acts)) && Run(input, acts).input == input
  {
    hide Step, Inv, ReaderOk;
    if acts == [] {
      InitReads(input);
    } else {
      var acts' := acts[..|acts| - 1];
      ReaderRun(input, acts');
      RunKept(input, acts');
      ReaderKept(Run(input, acts'), acts[|acts| - 1]);
      InputStays(Run(input, acts'), acts[|acts| - 1]);
    }
  }
}
