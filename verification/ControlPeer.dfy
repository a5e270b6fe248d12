/**
 From a call at this end to what the peer hears: a handler's answer, a request, a notice. Each
 is for every run in front of the call and every run behind it.
 */
module ControlPeer {
  import opened Prelude
  import opened ControlStream
  import opened ControlInvariant
  import opened ControlWriteSteps
  import opened ControlTheorems

  // ----- what stays --------------------------------------------------------

  predicate TakesNothing(s: State, t: State) {
    t.h.purpose == s.h.purpose
  }

  lemma TestsTakeNothing(s: State, id: nat)
    requires id in s.agents
    ensures TakesNothing(s, DoDrainTake(s, id)) && TakesNothing(s, DoLoadPoison(s, id))
    ensures TakesNothing(s, DoLoadServing(s, id)) && TakesNothing(s, DoWriteField(s, id))
  {}

  lemma WritersTakeNothing(s: State, id: nat, torn: bool)
    requires id in s.agents
    ensures TakesNothing(s, DoFinish(s, id)) && TakesNothing(s, DoStorePoison(s, id))
    ensures TakesNothing(s, DoDropGuard(s, id)) && TakesNothing(s, DoWriteFails(s, id, torn))
  {}

  lemma ReadersTakeNothing(s: State, id: nat, v: int, wantReply: bool)
    requires id in s.agents
    ensures TakesNothing(s, DoReadAnswer(s, id)) && TakesNothing(s, DoReadFails(s, id))
    ensures TakesNothing(s, DoReadGarbled(s, id, v)) && TakesNothing(s, DoAcceptGarbled(s, id, wantReply))
    ensures TakesNothing(s, DoAccept(s, id)) && TakesNothing(s, DoAcceptFails(s, id))
  {}

  lemma HandlesTake(s: State, id: nat, d: Decision)
    requires id in s.agents
    ensures TakesNothing(s, DoFinishPair(s, id)) && s.h.purpose <= DoTakeReply(s, id).h.purpose
    ensures TakesNothing(s, DoDecodeOk(s, id)) && TakesNothing(s, DoDropIncoming(s, id))
    ensures TakesNothing(s, DoRespond(s, id, d)) && TakesNothing(s, DoDropDecoded(s, id))
  {}

  lemma OnlyReplyTakes(s: State, a: Action)
    requires a.id in s.agents
    ensures if a.TakeReply? then s.h.purpose <= Step(s, a).h.purpose else TakesNothing(s, Step(s, a))
  {
    hide DoFinishPair, DoDrainTake, DoLoadPoison, DoLoadServing, DoWriteField, DoFinish, DoWriteFails,
         DoStorePoison, DoDropGuard, DoReadAnswer, DoReadFails, DoReadGarbled, DoAccept, DoAcceptFails,
         DoAcceptGarbled, DoTakeReply, DoDecodeOk, DoDropIncoming, DoRespond, DoDropDecoded;
    TestsTakeNothing(s, a.id);
    WritersTakeNothing(s, a.id, a.WriteFails? && a.torn);
    ReadersTakeNothing(s, a.id, if a.ReadGarbled? then a.v else 0, a.AcceptGarbled? && a.wantReply);
    HandlesTake(s, a.id, if a.Respond? then a.decision else Dropped);
  }

  lemma StartTakes(s: State, a: Action)
    requires a.id !in s.agents
    ensures s.h.purpose <= Step(s, a).h.purpose
  {
    hide DoFinishPair, DoDrainTake, DoLoadPoison, DoLoadServing, DoWriteField, DoFinish, DoWriteFails,
         DoStorePoison, DoDropGuard, DoReadAnswer, DoReadFails, DoReadGarbled, DoAccept, DoAcceptFails,
         DoAcceptGarbled, DoTakeReply, DoDecodeOk, DoDropIncoming, DoRespond, DoDropDecoded;
  }

  /** What a ticket was taken for is never changed. */
  lemma StepTakes(s: State, a: Action)
    ensures s.h.purpose <= Step(s, a).h.purpose
  {
    hide Step;
    if a.id in s.agents { OnlyReplyTakes(s, a); } else { StartTakes(s, a); }
  }

  lemma {:induction false} PurposeStays(s: State, more: seq<Action>)
    ensures s.h.purpose <= Exec(s, more).h.purpose
  {
    hide Step;
    if more != [] {
      PurposeStays(s, more[..|more| - 1]);
      StepTakes(Exec(s, more[..|more| - 1]), more[|more| - 1]);
    }
  }

  lemma {:induction false} DecisionStays(s: State, more: seq<Action>, k: nat)
    requires Inv(s) && k in s.h.decision
    ensures Inv(Exec(s, more)) && KeepsDecision(s, Exec(s, more), k)
  {
    hide Step, Inv;
    if more != [] {
      var more', a := more[..|more| - 1], more[|more| - 1];
      DecisionStays(s, more', k);
      var t := Exec(s, more');
      StepKept(t, a);
      InvAgent(t, a.id);
      DecisionStep(t, a, k);
    }
  }

  lemma InvAgent(s: State, id: nat)
    requires Inv(s)
    ensures id in s.agents ==> AgentOk(s, s.agents[id])
  {}

  // ----- a handler's answer ------------------------------------------------

  /** What the handler of request `k` does with it: respond_success, respond_failure, or a drop. */
  predicate Decides(a: Action, d: Decision) {
    match a
    case Respond(_, e) => e == d && !d.Dropped?
    case DropDecoded(_) => d.Dropped?
    case _ => false
  }

  lemma DecidesOnce(s: State, a: Action, d: Decision)
    requires Inv(s) && Decides(a, d) && a.id in s.agents && s.agents[a.id].Decoded?
    ensures var k := s.agents[a.id].k; k in Step(s, a).h.decision && Step(s, a).h.decision[k] == d
  {
    hide Inv;
  }

  /**
   Whatever happens before and after, the reply that the peer receives for the request of this
   handler says what the handler decided.
   */
  lemma HandlerIsHeard(input: seq<InMsg>, before: seq<Action>, a: Action, d: Decision, after: seq<Action>, n: nat)
    requires Decides(a, d)
    requires var s := Run(input, before); a.id in s.agents && s.agents[a.id].Decoded?
    requires NoneBroken(Run(input, before + [a] + after), n)
    ensures var k := Run(input, before).agents[a.id].k;
            var rs := Replies(Run(input, before + [a] + after).h.chunks[..n]);
            k < |rs| ==> Hears(rs[k]) == Some(match d case Accepted(data) => Granted(data) case _ => Denied)
  {
    hide Run, Inv, Hears, Step;
    var s := Run(input, before);
    RunKept(input, before);
    DecidesOnce(s, a, d);
    RunSnoc(input, before, a);
    RunKept(input, before + [a]);
    RunAppend(input, before + [a], after);
    DecisionStays(Run(input, before + [a]), after, s.agents[a.id].k);
    RepliesInArrivalOrder(input, before + [a] + after, n);
  }

  // ----- requests and notices ----------------------------------------------

  /** The message of a ticket that was taken for a request or a notice, once it is sent whole. */
  lemma WholeIsHeard(h: History, u: nat)
    requires u < |h.chunks| && u < |h.purpose| && WroteAll(h, u)
    ensures h.purpose[u].OutRequest? ==> Hears(h.chunks[u]) == Some(Asked(h.purpose[u].name, h.purpose[u].data))
    ensures h.purpose[u].OutNotice? ==> Hears(h.chunks[u]) == Some(Told(h.purpose[u].name, h.purpose[u].data))
  {}

  /** send_global_request and send_global_notification: what they take their ticket for. */
  lemma CallTakes(s: State, a: Action)
    requires (a.StartRequest? && s.lock.None?) || a.StartNotice?
    requires a.id !in s.agents && |s.h.purpose| == s.sh.wNext
    ensures var p := Step(s, a).h.purpose;
            |p| == s.sh.wNext + 1
            && p[s.sh.wNext] == if a.StartRequest? then OutRequest(a.name, a.data) else OutNotice(a.name, a.data)
  {
    hide DoFinishPair;
  }

  /**
   The peer hears just what was asked or told, unless the write of that message failed: the
   ticket is the next one at the time of the call.
   */
  lemma CallIsHeard(input: seq<InMsg>, before: seq<Action>, a: Action, after: seq<Action>)
    requires var s := Run(input, before);
             ((a.StartRequest? && s.lock.None?) || a.StartNotice?) && a.id !in s.agents
    ensures var u, t := Run(input, before).sh.wNext, Run(input, before + [a] + after);
            u < |t.h.chunks| && u !in t.h.broken ==>
              Hears(t.h.chunks[u]) == Some(if a.StartRequest? then Asked(a.name, a.data) else Told(a.name, a.data))
  {
    hide Run, Inv, Hears, Step;
    var s, all := Run(input, before), before + [a] + after;
    RunKept(input, before);
    InvNumbers(s);
    CallTakes(s, a);
    RunSnoc(input, before, a);
    RunAppend(input, before + [a], after);
    PurposeStays(Run(input, before + [a]), after);
    WireInTicketOrder(input, all);
    var t, u := Run(input, all), s.sh.wNext;
    if u < |t.h.chunks| && u !in t.h.broken {
      assert WroteAll(t.h, u);
      WholeIsHeard(t.h, u);
    }
  }

  lemma InvNumbers(s: State)
    requires Inv(s)
    ensures |s.h.purpose| == s.sh.wNext
  {}

  // ----- what is marked ----------------------------------------------------

  /** An error while a queued failure is written. */
  predicate DrainErrs(s: State, a: Action) {
    a.WriteFails? && a.id in s.agents && s.agents[a.id].Writer? && s.agents[a.id].pc.DrainHeld?
  }

  predicate SameMark(s: State, t: State) {
    t.h.drainFailed == s.h.drainFailed
  }

  lemma TestsMarkNothing(s: State, id: nat)
    requires id in s.agents
    ensures SameMark(s, DoDrainTake(s, id)) && SameMark(s, DoLoadPoison(s, id))
    ensures SameMark(s, DoLoadServing(s, id)) && SameMark(s, DoWriteField(s, id))
  {}

  lemma WritersMark(s: State, id: nat, torn: bool)
    requires id in s.agents
    ensures SameMark(s, DoFinish(s, id)) && SameMark(s, DoStorePoison(s, id)) && SameMark(s, DoDropGuard(s, id))
    ensures DoWriteFails(s, id, torn).h.drainFailed == (s.h.drainFailed || DrainErrs(s, WriteFails(id, torn)))
  {}

  lemma ReadersMarkNothing(s: State, id: nat, v: int, wantReply: bool)
    requires id in s.agents
    ensures SameMark(s, DoReadAnswer(s, id)) && SameMark(s, DoReadFails(s, id))
    ensures SameMark(s, DoReadGarbled(s, id, v)) && SameMark(s, DoAcceptGarbled(s, id, wantReply))
    ensures SameMark(s, DoAccept(s, id)) && SameMark(s, DoAcceptFails(s, id))
  {}

  lemma HandlesMarkNothing(s: State, id: nat, d: Decision)
    requires id in s.agents
    ensures SameMark(s, DoFinishPair(s, id)) && SameMark(s, DoTakeReply(s, id))
    ensures SameMark(s, DoDecodeOk(s, id)) && SameMark(s, DoDropIncoming(s, id))
    ensures SameMark(s, DoRespond(s, id, d)) && SameMark(s, DoDropDecoded(s, id))
  {}

  lemma AgentMarks(s: State, a: Action)
    requires a.id in s.agents && !a.WriteFails?
    ensures SameMark(s, Step(s, a))
  {
    hide DoFinishPair, DoDrainTake, DoLoadPoison, DoLoadServing, DoWriteField, DoFinish, DoWriteFails,
         DoStorePoison, DoDropGuard, DoReadAnswer, DoReadFails, DoReadGarbled, DoAccept, DoAcceptFails,
         DoAcceptGarbled, DoTakeReply, DoDecodeOk, DoDropIncoming, DoRespond, DoDropDecoded;
    TestsMarkNothing(s, a.id);
    WritersMark(s, a.id, false);
    ReadersMarkNothing(s, a.id, if a.ReadGarbled? then a.v else 0, a.AcceptGarbled? && a.wantReply);
    HandlesMarkNothing(s, a.id, if a.Respond? then a.decision else Dropped);
  }

  lemma StartMarksNothing(s: State, a: Action)
    requires a.id !in s.agents
    ensures SameMark(s, Step(s, a))
  {
    hide DoFinishPair, DoDrainTake, DoLoadPoison, DoLoadServing, DoWriteField, DoFinish, DoWriteFails,
         DoStorePoison, DoDropGuard, DoReadAnswer, DoReadFails, DoReadGarbled, DoAccept, DoAcceptFails,
         DoAcceptGarbled, DoTakeReply, DoDecodeOk, DoDropIncoming, DoRespond, DoDropDecoded;
  }

  lemma StepMarks(s: State, a: Action)
    ensures Step(s, a).h.drainFailed == (s.h.drainFailed || DrainErrs(s, a))
  {
    if a.id !in s.agents {
      StartMarksNothing(s, a);
      hide Step;
    } else if a.WriteFails? {
      WritersMark(s, a.id, a.torn);
      hide DoWriteFails;
    } else {
      AgentMarks(s, a);
      hide Step;
    }
  }

  /** Runs are marked just when a write failed inside a drain. */
  lemma {:induction false} DrainErrorsAreMarked(input: seq<InMsg>, acts: seq<Action>)
    ensures Run(input, acts).h.drainFailed <==>
            exists i :: 0 <= i < |acts| && DrainErrs(Run(input, acts[..i]), acts[i])
  {
    hide Step, DrainErrs;
    if acts != [] {
      var n := |acts| - 1;
      DrainErrorsAreMarked(input, acts[..n]);
      assert acts == acts[..n] + [acts[n]];
      RunSnoc(input, acts[..n], acts[n]);
      StepMarks(Run(input, acts[..n]), acts[n]);
      assert forall i :: 0 <= i < n ==> acts[..n][..i] == acts[..i] && acts[..n][i] == acts[i];
    }
  }
}
