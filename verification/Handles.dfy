/**
 The handles of incoming global requests, and the calls that make and use them, as objects
 over `ConversationShared`. A handle holds the reader guard or a writer ticket as an option
 that is taken once; what its `Drop` does depends on what is still there.
 */
module Handles {
  import opened Prelude
  import opened Tickets
  import opened ControlStream
  import opened Conversation
  import opened WriterRuns

  /** What decoding a global request's header comes to. */
  datatype Header = Unreadable | OtherMessage | GlobalRequest(wantReply: bool)

  datatype Incoming = Notify(notice: IncomingGlobalNotice) | Request(request: IncomingGlobalRequest)

  /** What is left of an accept call. */
  datatype AcceptOutcome = StillWaiting | FoundPoisoned | Failed | Arrived(incoming: Incoming)

  /** The shared state when a handle has given the reader guard up: poisoned first, unless it was decoded. */
  function GivenUp(sh: Shared, decoded: bool): Shared {
    if decoded then sh.ReleaseReader() else sh.Poison().ReleaseReader()
  }

  class IncomingGlobalRequest {
    const shared: ConversationShared
    var readerGuard: bool
    var writerTicket: Option<nat>

    constructor (shared: ConversationShared, writerTicket: nat)
      ensures this.shared == shared && readerGuard && this.writerTicket == Some(writerTicket)
    {
      this.shared := shared;
      readerGuard, this.writerTicket := true, Some(writerTicket);
    }

    /** Drop: with the guard still here the session is poisoned, and only then is the guard released. */
    method Drop()
      requires shared.Valid()
      modifies this, shared`poisoned, shared.reader, shared.writer`wakeups
      ensures !readerGuard && writerTicket == old(writerTicket)
      ensures shared.Core() == if old(readerGuard) then GivenUp(old(shared.Core()), false) else old(shared.Core())
      ensures old(readerGuard) ==> shared.poisoned
      ensures shared.reader.released == old(shared.reader.released) + if old(readerGuard) then [true] else []
    {
      if readerGuard {
        shared.Poison();
        readerGuard := false;
        shared.reader.DropGuard(shared.poisoned);
      }
    }

    /**
     Consumes the handle. A payload that decodes gives up the reader guard and hands the writer
     ticket on; one that does not leaves both, and the drop poisons the session.
     */
    method DecodePayload(decodes: bool) returns (decoded: Option<DecodedGlobalRequest>)
      requires shared.Valid() && readerGuard && writerTicket.Some?
      modifies this, shared`poisoned, shared.reader, shared.writer`wakeups
      ensures decoded.Some? <==> decodes
      ensures decodes ==>
                && fresh(decoded.value) && decoded.value.shared == shared
                && decoded.value.writerTicket == old(writerTicket) && writerTicket.None?
      ensures shared.Core() == GivenUp(old(shared.Core()), decodes)
      ensures shared.poisoned == (old(shared.poisoned) || !decodes)
      ensures shared.reader.released == old(shared.reader.released) + [old(shared.poisoned) || !decodes]
      ensures !readerGuard
    {
      if decodes {
        readerGuard := false;
        shared.reader.DropGuard(shared.poisoned);
        var ticket := writerTicket.value;
        writerTicket := None;
        var d := new DecodedGlobalRequest(shared, ticket);
        decoded := Some(d);
      } else {
        decoded := None;
      }
      Drop();
    }
  }

  class IncomingGlobalNotice {
    const shared: ConversationShared
    var readerGuard: bool

    constructor (shared: ConversationShared)
      ensures this.shared == shared && readerGuard
    {
      this.shared := shared;
      readerGuard := true;
    }

    method Drop()
      requires shared.Valid()
      modifies this, shared`poisoned, shared.reader, shared.writer`wakeups
      ensures !readerGuard
      ensures shared.Core() == if old(readerGuard) then GivenUp(old(shared.Core()), false) else old(shared.Core())
      ensures old(readerGuard) ==> shared.poisoned
      ensures shared.reader.released == old(shared.reader.released) + if old(readerGuard) then [true] else []
    {
      if readerGuard {
        shared.Poison();
        readerGuard := false;
        shared.reader.DropGuard(shared.poisoned);
      }
    }

    method DecodePayload(decodes: bool)
      requires shared.Valid() && readerGuard
      modifies this, shared`poisoned, shared.reader, shared.writer`wakeups
      ensures !readerGuard
      ensures shared.Core() == GivenUp(old(shared.Core()), decodes)
      ensures shared.poisoned == (old(shared.poisoned) || !decodes)
      ensures shared.reader.released == old(shared.reader.released) + [old(shared.poisoned) || !decodes]
    {
      if decodes {
        readerGuard := false;
        shared.reader.DropGuard(shared.poisoned);
      }
      Drop();
    }
  }

  class DecodedGlobalRequest {
    const shared: ConversationShared
    var writerTicket: Option<nat>

    constructor (shared: ConversationShared, writerTicket: nat)
      ensures this.shared == shared && this.writerTicket == Some(writerTicket)
    {
      this.shared := shared;
      this.writerTicket := Some(writerTicket);
    }

    /**
     respond_success and respond_failure, up to the point where they would wait: the ticket is
     taken, whatever comes of it, so that the drop at the end queues nothing.
     */
    method Respond(decision: Decision) returns (r: Acquired, ok: bool)
      requires shared.Valid() && writerTicket.Some? && !decision.Dropped?
      modifies this, shared, shared.writer, shared.reader`wakeups, shared.sink
      ensures writerTicket.None?
      ensures var w := WriterCall(old(shared.Core()), old(shared.sink.wire), old(shared.sink.room),
                                  shared.sink.Debris(), old(writerTicket).value, ReplyFields(decision));
              shared.Core() == w.core && shared.sink.wire == w.wire && r == w.acquired && ok == w.ok
    {
      var ticket := writerTicket.value;
      writerTicket := None;
      r := shared.AcquireWriter(ticket);
      ok := false;
      if r.Guard? {
        assert shared.writer.currentServing == ticket;
        ok := shared.WriteMessage(ticket, ReplyFields(decision));
      }
      Drop();
    }

    /** Drop: an unanswered request is queued for a failure reply; an answered one is not. */
    method Drop()
      modifies this, shared`autoFailures, shared.writer`wakeups
      ensures writerTicket.None?
      ensures shared.Core() == if old(writerTicket).Some? then old(shared.Core()).Queue(old(writerTicket).value)
                               else old(shared.Core())
    {
      if writerTicket.Some? {
        shared.DropDecoded(writerTicket.value);
        writerTicket := None;
      }
    }
  }

  /** accept_global_request with nothing interfering; `header` is what arrives. */
  method AcceptGlobalRequest(shared: ConversationShared, header: Header) returns (r: AcceptOutcome)
    requires shared.Valid()
    modifies shared`poisoned, shared.reader, shared.writer
    ensures var s := old(shared.Core());
            var t := s.TakeReader();
            if s.poisoned then r.FoundPoisoned? && shared.Core() == t
            else if s.rServing != s.rNext then r.StillWaiting? && shared.Core() == t
            else match header
              case GlobalRequest(true) =>
                && r.Arrived? && r.incoming.Request? && fresh(r.incoming.request)
                && r.incoming.request.shared == shared && r.incoming.request.readerGuard
                && r.incoming.request.writerTicket == Some(s.wNext)
                && shared.Core() == t.TakeWriter()
              case GlobalRequest(false) =>
                && r.Arrived? && r.incoming.Notify? && fresh(r.incoming.notice)
                && r.incoming.notice.shared == shared && r.incoming.notice.readerGuard
                && shared.Core() == t
              case _ => r.Failed? && shared.Core() == t.Poison().ReleaseReader()
    ensures shared.reader.released == old(shared.reader.released) + if r.Failed? then [true] else []
  {
    var readTicket := shared.reader.TakeTicket();
    var acquired := shared.reader.Acquire(readTicket, shared.poisoned);
    if acquired.SessionPoisoned? {
      return FoundPoisoned;
    }
    if acquired.Wait? {
      return StillWaiting;
    }
    match header {
      case GlobalRequest(wantReply) =>
        if wantReply {
          var writeTicket := shared.writer.TakeTicket();
          var request := new IncomingGlobalRequest(shared, writeTicket);
          r := Arrived(Incoming.Request(request));
        } else {
          var notice := new IncomingGlobalNotice(shared);
          r := Arrived(Incoming.Notify(notice));
        }
      case _ =>
        shared.Poison();
        shared.reader.DropGuard(shared.poisoned);
        r := Failed;
    }
  }

  // ----- handles as agents -------------------------------------------------

  datatype HandleCall = Decode(decodes: bool) | Abandon

  /** A handle that still holds the reader guard, or a decoded one. */
  predicate IsHandle(a: Agent) {
    (a.Reader? && a.rpc.RHeld? && (a.rjob.CallHeld? || a.rjob.NoticeHeld?)) || a.Decoded?
  }

  /** The run that a call on the handle, or its drop, is in the transition system. */
  function HandleRun(a: Agent, id: nat, c: HandleCall): seq<Action> {
    if a.Decoded? then [DropDecoded(id)]
    else if c == Decode(true) then [DecodeOk(id)]
    else [DropIncoming(id), StorePoison(id), DropGuard(id)]
  }

  /** The shared state and what is left of the handle, as the methods of the handles have it. */
  function HandleOutcome(sh: Shared, a: Agent, c: HandleCall): (Shared, Option<Agent>)
    requires IsHandle(a)
  {
    if a.Decoded? then (sh.Queue(a.w), None)
    else if c == Decode(true) then
      (GivenUp(sh, true), if a.rjob.CallHeld? then Some(Agent.Decoded(a.rjob.w, a.rjob.k)) else None)
    else (GivenUp(sh, false), None)
  }

  /** Every call on a handle, and every drop, is that run, and nobody else is touched by it. */
  lemma HandleRefines(s: State, id: nat, c: HandleCall)
    requires id in s.agents && IsHandle(s.agents[id]) && (s.agents[id].Decoded? ==> c.Abandon?)
    ensures var t := Exec(s, HandleRun(s.agents[id], id, c));
            var (sh, left) := HandleOutcome(s.sh, s.agents[id], c);
            && t.sh == sh && t.h.wire == s.h.wire
            && t.agents == if left.Some? then s.agents[id := left.value] else s.agents - {id}
  {
    hide Step, Exec;
    if s.agents[id].Decoded? {
      ExecOne(s, DropDecoded(id));
      HandleQueues(s, id);
    } else if c == Decode(true) {
      ExecOne(s, DecodeOk(id));
      HandleDecodes(s, id);
    } else {
      HandlePoisons(s, id);
    }
  }

  lemma ExecOne(s: State, a: Action)
    ensures Exec(s, [a]) == Step(s, a)
  {
    hide Step;
    ExecSnoc(s, [], a);
    assert [] + [a] == [a];
  }

  lemma HandleQueues(s: State, id: nat)
    requires id in s.agents && s.agents[id].Decoded?
    ensures var t := Step(s, DropDecoded(id));
            t.sh == s.sh.Queue(s.agents[id].w) && t.h.wire == s.h.wire && t.agents == s.agents - {id}
  {}

  lemma HandleDecodes(s: State, id: nat)
    requires id in s.agents && IsHandle(s.agents[id]) && s.agents[id].Reader?
    ensures var t := Step(s, DecodeOk(id)); var job := s.agents[id].rjob;
            && t.sh == s.sh.ReleaseReader() && t.h.wire == s.h.wire
            && t.agents == if job.CallHeld? then s.agents[id := Agent.Decoded(job.w, job.k)] else s.agents - {id}
  {}

  lemma HandlePoisons(s: State, id: nat)
    requires id in s.agents && IsHandle(s.agents[id]) && s.agents[id].Reader?
    ensures var t := Exec(s, [DropIncoming(id), StorePoison(id), DropGuard(id)]);
            t.sh == s.sh.Poison().ReleaseReader() && t.h.wire == s.h.wire && t.agents == s.agents - {id}
  {
    HandleStores(s, id);
    HandleReleases(Step(Step(s, DropIncoming(id)), StorePoison(id)), id);
    hide Step;
    ExecThree(s, DropIncoming(id), StorePoison(id), DropGuard(id));
  }

  lemma HandleStores(s: State, id: nat)
    requires id in s.agents && IsHandle(s.agents[id]) && s.agents[id].Reader?
    ensures var t := Step(Step(s, DropIncoming(id)), StorePoison(id));
            && t.sh == s.sh.Poison() && t.h.wire == s.h.wire
            && t.agents == s.agents[id := s.agents[id].(rpc := RPoisoned)]
  {
    assert Step(s, DropIncoming(id)) == Put(s.(synced := false), id, s.agents[id].(rpc := RBroken));
  }

  lemma HandleReleases(s: State, id: nat)
    requires id in s.agents && s.agents[id].Reader? && s.agents[id].rpc.RPoisoned?
    ensures var t := Step(s, DropGuard(id));
            t.sh == s.sh.ReleaseReader() && t.h.wire == s.h.wire && t.agents == s.agents - {id}
  {}
}
