/**
 The ordered control stream of a conversation as a transition system.

 Any number of agents (tasks and request handles) share two ticket queues, one for
 the reader and one for the writer of the control stream, a poison flag and a queue
 of replies that were abandoned. Every atomic access to the shared state is a step
 of its own; in particular `acquire` loads the poison flag and the serving counter
 in two separate steps. A run is any sequence of actions: a scheduler picks which
 agent moves, an environment picks calls, drops and I/O errors.
 */
module ControlStream {
  import opened Prelude
  import opened Tickets

  // ----- what is written ---------------------------------------------------

  /** One encode call. `Torn` is what a failing encode call leaves behind. */
  datatype Field =
    | MsgType(code: nat)
    | RequestType(name: string)
    | WantReply(flag: bool)
    | Payload(data: seq<int>)
    | Torn

  /** What became of an incoming request that wants a reply. */
  datatype Decision = Accepted(data: seq<int>) | Rejected | Dropped

  function RequestFields(name: string, wantReply: bool, data: seq<int>): seq<Field> {
    [MsgType(GLOBAL_REQUEST), RequestType(name), WantReply(wantReply), Payload(data)]
  }

  const FAILURE: seq<Field> := [MsgType(REQUEST_FAILURE)]

  function ReplyFields(d: Decision): seq<Field> {
    match d
    case Accepted(data) => [MsgType(REQUEST_SUCCESS), Payload(data)]
    case Rejected => FAILURE
    case Dropped => FAILURE
  }

  /** What a writer ticket was taken for. `ReplyTo(k)` is for the k-th accepted request. */
  datatype Purpose =
    | OutRequest(name: string, data: seq<int>)
    | OutNotice(name: string, data: seq<int>)
    | ReplyTo(k: nat)

  // ----- agents ------------------------------------------------------------

  /** The message a writing agent is about to send. */
  datatype Job =
    | Request(name: string, data: seq<int>, readTicket: nat)
    | Notice(name: string, data: seq<int>)
    | Reply(k: nat, decision: Decision)

  function Message(job: Job): seq<Field> {
    match job
    case Request(name, data, _) => RequestFields(name, true, data)
    case Notice(name, data) => RequestFields(name, false, data)
    case Reply(_, d) => ReplyFields(d)
  }

  /** Where an agent is between calling `acquire_writer` and giving the guard back. */
  datatype WriterPc =
    | Loop              // top of the loop in drain_auto_failures
    | Loaded(c: nat)    // `current` holds the serving counter as it was read
    | Took(c: nat)      // removed c from auto_failures, inside acquire(c)
    | TookClear(c: nat) // ... poison flag read as false
    | DrainHeld(c: nat, n: nat) // ... guard held, n fields of the failure written
    | DrainBroken       // ... I/O error, guard already dropped, poison store to come
    | Turn              // drained; about to compare the serving counter
    | Enabled           // notification enabled; about to read the poison flag
    | Recheck           // about to compare the serving counter again
    | Parked            // waiting for a notification
    | Acquire           // inside acquire(ticket), before the poison flag is read
    | Clear             // ... poison flag read as false
    | Held(n: nat)      // guard held, n fields of the message written
    | Broken            // I/O error, guard still held, poison store to come
    | Poisoned          // poison flag stored, guard about to drop

  /** What a reader ticket is used for. */
  datatype ReaderJob =
    | Response(w: nat)         // the answer to the request written with ticket w
    | Accepting                // accept_global_request
    | HeaderRead(wantReply: bool, at: nat) // ... has decoded the header of message `at`
    | CallHeld(w: nat, k: nat) // an IncomingGlobalRequest handle with its writer ticket
    | NoticeHeld               // an IncomingGlobalNotice handle

  datatype ReaderPc = RAcquire | RClear | RHeld | RBroken | RPoisoned

  datatype Agent =
    | Pairing(w: nat, name: string, data: seq<int>) // holds ticket_pair_lock, read ticket to come
    | Writer(w: nat, job: Job, pc: WriterPc)
    | Reader(r: nat, rjob: ReaderJob, rpc: ReaderPc)
    | Decoded(w: nat, k: nat)                       // a DecodedGlobalRequest handle

  // ----- state -------------------------------------------------------------

  /** A message of the peer: an answer, a global request, or something else. */
  datatype InMsg = Answer(v: int) | Call(wantReply: bool) | Junk

  /** The counters at the first poison store, and the reader tickets whose owners had by
      then read the poison flag as false inside `acquire`, or held the guard. */
  datatype PoisonMark = PoisonMark(wServing: nat, rServing: nat, grace: set<nat>)

  /** What happened so far. No step reads it. */
  datatype History = History(
    purpose: seq<Purpose>,       // of every writer ticket taken
    decision: map<nat, Decision>, // of every accepted request that was answered or dropped
    wire: seq<Field>,            // everything written to the control stream
    chunks: seq<seq<Field>>,     // what each retired writer ticket wrote
    cur: seq<Field>,             // what the ticket now served has written
    broken: set<nat>,            // retired tickets whose write failed
    pairs: seq<(nat, nat)>,      // write and read tickets of outgoing requests
    delivered: map<nat, int>,    // answers, by write ticket of the request
    calls: seq<nat>,             // where in the input each accepted request was
    drainFailed: bool,           // an I/O error happened inside drain_auto_failures
    mark: Option<PoisonMark>)

  datatype State = State(
    sh: Shared,
    lock: Option<nat>,           // holder of ticket_pair_lock
    agents: map<nat, Agent>,
    input: seq<InMsg>,           // everything the peer will send
    rpos: nat,                   // messages consumed
    synced: bool,                // the reader is at a message boundary
    h: History)

  function Init(input: seq<InMsg>): State {
    State(FRESH, None, map[], input, 0, true,
          History([], map[], [], [], [], {}, [], map[], [], false, None))
  }

  /** The writer tickets, in order, that were taken for replies. */
  function ReplyTickets(p: seq<Purpose>): seq<nat> {
    if p == [] then []
    else ReplyTickets(p[..|p| - 1]) + if p[|p| - 1].ReplyTo? then [|p| - 1] else []
  }

  /** The writer tickets, in order, that were taken for outgoing requests. */
  function RequestTickets(p: seq<Purpose>): seq<nat> {
    if p == [] then []
    else RequestTickets(p[..|p| - 1]) + if p[|p| - 1].OutRequest? then [|p| - 1] else []
  }

  // ----- steps -------------------------------------------------------------

  datatype Action =
    | StartRequest(id: nat, name: string, data: seq<int>)
    | FinishPair(id: nat)
    | StartNotice(id: nat, name: string, data: seq<int>)
    | StartAccept(id: nat)
    | DrainLoad(id: nat)
    | DrainTake(id: nat)
    | LoadPoison(id: nat)
    | LoadServing(id: nat)
    | Wake(id: nat)
    | WriteField(id: nat)
    | Finish(id: nat)
    | WriteFails(id: nat, torn: bool)
    | StorePoison(id: nat)
    | DropGuard(id: nat)
    | ReadAnswer(id: nat)
    | ReadFails(id: nat)
    | ReadGarbled(id: nat, v: int)
    | Accept(id: nat)
    | AcceptFails(id: nat)
    | AcceptGarbled(id: nat, wantReply: bool)
    | TakeReply(id: nat)
    | DecodeOk(id: nat)
    | DropIncoming(id: nat)
    | Respond(id: nat, decision: Decision)
    | DropDecoded(id: nat)

  function Put(s: State, id: nat, a: Agent): State {
    s.(agents := s.agents[id := a])
  }

  function Remove(s: State, id: nat): State {
    s.(agents := s.agents - {id})
  }

  /** Take a writer ticket for `p`. */
  function Take(s: State, p: Purpose): State {
    s.(sh := s.sh.TakeWriter(), h := s.h.(purpose := s.h.purpose + [p]))
  }

  /** One field reaches the stream. */
  function Emit(s: State, f: Field): State {
    s.(h := s.h.(wire := s.h.wire + [f], cur := s.h.cur + [f]))
  }

  /** The writer guard drops. */
  function ReleaseWriter(s: State, failed: bool): State {
    s.(sh := s.sh.ReleaseWriter(),
       h := s.h.(chunks := s.h.chunks + [s.h.cur], cur := [],
                 broken := s.h.broken + if failed then {s.sh.wServing} else {}))
  }

  /** The reader guard drops. */
  function ReleaseReader(s: State): State {
    s.(sh := s.sh.ReleaseReader())
  }

  /** The reader tickets of agents that have read the poison flag as false. */
  function Grace(agents: map<nat, Agent>): set<nat> {
    set id | id in agents && agents[id].Reader? && !agents[id].rpc.RAcquire? :: agents[id].r
  }

  function Poison(s: State): State {
    s.(sh := s.sh.Poison(),
       h := s.h.(mark := if s.h.mark.Some? then s.h.mark
                         else Some(PoisonMark(s.sh.wServing, s.sh.rServing, Grace(s.agents)))))
  }

  function DoFinishPair(s: State, id: nat): State
    requires id in s.agents
  {
    match s.agents[id]
    case Pairing(w, name, data) =>
      var r := s.sh.rNext;
      Put(s.(sh := s.sh.TakeReader(), lock := None, h := s.h.(pairs := s.h.pairs + [(w, r)])),
          id, Writer(w, Request(name, data, r), Loop))
    case _ => s
  }

  function DoDrainTake(s: State, id: nat): State
    requires id in s.agents
  {
    match s.agents[id]
    case Writer(w, job, Loaded(c)) =>
      if c in s.sh.autoFailures then Put(s.(sh := s.sh.Unqueue(c)), id, Writer(w, job, Took(c)))
      else Put(s, id, Writer(w, job, Turn))
    case _ => s
  }

  function DoLoadPoison(s: State, id: nat): State
    requires id in s.agents
  {
    match s.agents[id]
    case Writer(w, job, Took(c)) =>
      if s.sh.poisoned then Remove(s, id) else Put(s, id, Writer(w, job, TookClear(c)))
    case Writer(w, job, Enabled) =>
      if s.sh.poisoned then Remove(s, id) else Put(s, id, Writer(w, job, Recheck))
    case Writer(w, job, Acquire) =>
      if s.sh.poisoned then Remove(s, id) else Put(s, id, Writer(w, job, Clear))
    case Reader(r, job, RAcquire) =>
      if s.sh.poisoned then Remove(s, id) else Put(s, id, Reader(r, job, RClear))
    case _ => s
  }

  function DoLoadServing(s: State, id: nat): State
    requires id in s.agents
  {
    match s.agents[id]
    case Writer(w, job, TookClear(c)) =>
      Put(s, id, Writer(w, job, if s.sh.wServing == c then DrainHeld(c, 0) else Took(c)))
    case Writer(w, job, Turn) =>
      Put(s, id, Writer(w, job, if s.sh.wServing == w then Acquire else Enabled))
    case Writer(w, job, Recheck) =>
      Put(s, id, Writer(w, job, if s.sh.wServing == w then Acquire else Parked))
    case Writer(w, job, Clear) =>
      Put(s, id, Writer(w, job, if s.sh.wServing == w then Held(0) else Acquire))
    case Reader(r, job, RClear) =>
      Put(s, id, Reader(r, job, if s.sh.rServing == r then RHeld else RAcquire))
    case _ => s
  }

  function DoWriteField(s: State, id: nat): State
    requires id in s.agents
  {
    match s.agents[id]
    case Writer(w, job, Held(n)) =>
      if n < |Message(job)| then Put(Emit(s, Message(job)[n]), id, Writer(w, job, Held(n + 1))) else s
    case Writer(w, job, DrainHeld(c, n)) =>
      if n < |FAILURE| then Put(Emit(s, FAILURE[n]), id, Writer(w, job, DrainHeld(c, n + 1))) else s
    case _ => s
  }

  function DoFinish(s: State, id: nat): State
    requires id in s.agents
  {
    match s.agents[id]
    case Writer(w, job, Held(n)) =>
      if n != |Message(job)| then s
      else if job.Request? then
        Put(ReleaseWriter(s, false), id, Reader(job.readTicket, Response(w), RAcquire))
      else Remove(ReleaseWriter(s, false), id)
    case Writer(w, job, DrainHeld(c, n)) =>
      if n != |FAILURE| then s
      else Put(ReleaseWriter(s, false), id, Writer(w, job, Loop))
    case _ => s
  }

  /** An encode call or, with every field written, the flush fails.
      `torn` says whether an encode call wrote part of its field. */
  function DoWriteFails(s: State, id: nat, torn: bool): State
    requires id in s.agents
  {
    match s.agents[id]
    case Writer(w, job, Held(n)) =>
      Put(if torn && n < |Message(job)| then Emit(s, Torn) else s, id, Writer(w, job, Broken))
    case Writer(w, job, DrainHeld(c, n)) =>
      var t := ReleaseWriter(if torn && n < |FAILURE| then Emit(s, Torn) else s, true);
      Put(t.(h := t.h.(drainFailed := true)), id, Writer(w, job, DrainBroken))
    case _ => s
  }

  function DoStorePoison(s: State, id: nat): State
    requires id in s.agents
  {
    match s.agents[id]
    case Writer(w, job, Broken) => Put(Poison(s), id, Writer(w, job, Poisoned))
    case Writer(w, job, DrainBroken) => Remove(Poison(s), id)
    case Reader(r, job, RBroken) => Put(Poison(s), id, Reader(r, job, RPoisoned))
    case _ => s
  }

  function DoDropGuard(s: State, id: nat): State
    requires id in s.agents
  {
    match s.agents[id]
    case Writer(w, job, Poisoned) => Remove(ReleaseWriter(s, true), id)
    case Reader(r, job, RPoisoned) => Remove(ReleaseReader(s), id)
    case _ => s
  }

  /** send_global_request reads what should be the answer and drops the reader guard. */
  function DoReadAnswer(s: State, id: nat): State
    requires id in s.agents
  {
    match s.agents[id]
    case Reader(r, Response(w), RHeld) =>
      if !s.synced || |s.input| <= s.rpos then s
      else if s.input[s.rpos].Answer? then
        Remove(ReleaseReader(s.(rpos := s.rpos + 1,
                                h := s.h.(delivered := s.h.delivered[w := s.input[s.rpos].v]))), id)
      else Remove(ReleaseReader(s.(synced := false)), id)
    case _ => s
  }

  /** A decode error while reading an answer: the session is not poisoned. */
  function DoReadFails(s: State, id: nat): State
    requires id in s.agents
  {
    match s.agents[id]
    case Reader(r, Response(w), RHeld) => Remove(ReleaseReader(s.(synced := false)), id)
    case _ => s
  }

  /** Out of step with the peer's messages, any value may be decoded. */
  function DoReadGarbled(s: State, id: nat, v: int): State
    requires id in s.agents
  {
    match s.agents[id]
    case Reader(r, Response(w), RHeld) =>
      if s.synced then s
      else Remove(ReleaseReader(s.(h := s.h.(delivered := s.h.delivered[w := v]))), id)
    case _ => s
  }

  /** accept_global_request decodes the header of a request, or fails to. */
  function DoAccept(s: State, id: nat): State
    requires id in s.agents
  {
    match s.agents[id]
    case Reader(r, Accepting, RHeld) =>
      if !s.synced || |s.input| <= s.rpos then s
      else if s.input[s.rpos].Call? then
        Put(s.(rpos := s.rpos + 1), id, Reader(r, HeaderRead(s.input[s.rpos].wantReply, s.rpos), RHeld))
      else Put(s.(synced := false), id, Reader(r, Accepting, RBroken))
    case _ => s
  }

  function DoAcceptFails(s: State, id: nat): State
    requires id in s.agents
  {
    match s.agents[id]
    case Reader(r, Accepting, RHeld) => Put(s.(synced := false), id, Reader(r, Accepting, RBroken))
    case _ => s
  }

  function DoAcceptGarbled(s: State, id: nat, wantReply: bool): State
    requires id in s.agents
  {
    match s.agents[id]
    case Reader(r, Accepting, RHeld) =>
      if s.synced then s else Put(s, id, Reader(r, HeaderRead(wantReply, s.rpos), RHeld))
    case _ => s
  }

  /** The handle is built, with a writer ticket if a reply is wanted; the reader guard is still held. */
  function DoTakeReply(s: State, id: nat): State
    requires id in s.agents
  {
    match s.agents[id]
    case Reader(r, HeaderRead(true, at), RHeld) =>
      var k := |ReplyTickets(s.h.purpose)|;
      var t := Take(s, ReplyTo(k));
      Put(t.(h := t.h.(calls := t.h.calls + [at])), id, Reader(r, CallHeld(s.sh.wNext, k), RHeld))
    case Reader(r, HeaderRead(false, _), RHeld) => Put(s, id, Reader(r, NoticeHeld, RHeld))
    case _ => s
  }

  function DoDecodeOk(s: State, id: nat): State
    requires id in s.agents
  {
    match s.agents[id]
    case Reader(r, CallHeld(w, k), RHeld) => Put(ReleaseReader(s), id, Decoded(w, k))
    case Reader(r, NoticeHeld, RHeld) => Remove(ReleaseReader(s), id)
    case _ => s
  }

  /** A handle is dropped, poisoned, or its payload fails to decode, with the reader guard held. */
  function DoDropIncoming(s: State, id: nat): State
    requires id in s.agents
  {
    match s.agents[id]
    case Reader(r, CallHeld(w, k), RHeld) =>
      Put(s.(synced := false), id, Reader(r, CallHeld(w, k), RBroken))
    case Reader(r, NoticeHeld, RHeld) =>
      Put(s.(synced := false), id, Reader(r, NoticeHeld, RBroken))
    case _ => s
  }

  function DoRespond(s: State, id: nat, d: Decision): State
    requires id in s.agents
  {
    match s.agents[id]
    case Decoded(w, k) =>
      if d.Dropped? then s
      else Put(s.(h := s.h.(decision := s.h.decision[k := d])), id, Writer(w, Reply(k, d), Loop))
    case _ => s
  }

  function DoDropDecoded(s: State, id: nat): State
    requires id in s.agents
  {
    match s.agents[id]
    case Decoded(w, k) =>
      Remove(s.(sh := s.sh.Queue(w), h := s.h.(decision := s.h.decision[k := Dropped])), id)
    case _ => s
  }

  /** One step. An action that is not enabled leaves the state alone. */
  function Step(s: State, a: Action): State {
    if a.StartRequest? then
      if a.id in s.agents || s.lock.Some? then s
      else Put(Take(s, OutRequest(a.name, a.data)).(lock := Some(a.id)),
               a.id, Pairing(s.sh.wNext, a.name, a.data))
    else if a.StartNotice? then
      if a.id in s.agents then s
      else Put(Take(s, OutNotice(a.name, a.data)), a.id,
               Writer(s.sh.wNext, Notice(a.name, a.data), Loop))
    else if a.StartAccept? then
      if a.id in s.agents then s
      else Put(s.(sh := s.sh.TakeReader()), a.id, Reader(s.sh.rNext, Accepting, RAcquire))
    else if a.id !in s.agents then s
    else
      match a
      case FinishPair(id) => DoFinishPair(s, id)
      case DrainLoad(id) =>
        var g := s.agents[id];
        if g.Writer? && g.pc.Loop? then Put(s, id, Writer(g.w, g.job, Loaded(s.sh.wServing))) else s
      case DrainTake(id) => DoDrainTake(s, id)
      case LoadPoison(id) => DoLoadPoison(s, id)
      case LoadServing(id) => DoLoadServing(s, id)
      case Wake(id) =>
        var g := s.agents[id];
        if g.Writer? && g.pc.Parked? then Put(s, id, Writer(g.w, g.job, Loop)) else s
      case WriteField(id) => DoWriteField(s, id)
      case Finish(id) => DoFinish(s, id)
      case WriteFails(id, torn) => DoWriteFails(s, id, torn)
      case StorePoison(id) => DoStorePoison(s, id)
      case DropGuard(id) => DoDropGuard(s, id)
      case ReadAnswer(id) => DoReadAnswer(s, id)
      case ReadFails(id) => DoReadFails(s, id)
      case ReadGarbled(id, v) => DoReadGarbled(s, id, v)
      case Accept(id) => DoAccept(s, id)
      case AcceptFails(id) => DoAcceptFails(s, id)
      case AcceptGarbled(id, wantReply) => DoAcceptGarbled(s, id, wantReply)
      case TakeReply(id) => DoTakeReply(s, id)
      case DecodeOk(id) => DoDecodeOk(s, id)
      case DropIncoming(id) => DoDropIncoming(s, id)
      case Respond(id, d) => DoRespond(s, id, d)
      case DropDecoded(id) => DoDropDecoded(s, id)
  }

  /** The state after further actions. */
  function Exec(s: State, acts: seq<Action>): State {
    if acts == [] then s else Step(Exec(s, acts[..|acts| - 1]), acts[|acts| - 1])
  }

  lemma {:induction false} ExecAppend(s: State, acts: seq<Action>, more: seq<Action>)
    ensures Exec(s, acts + more) == Exec(Exec(s, acts), more)
  {
    hide Step;
    if more == [] {
      assert acts + more == acts;
    } else {
      var n := |more| - 1;
      assert (acts + more)[..|acts + more| - 1] == acts + more[..n];
      ExecAppend(s, acts, more[..n]);
    }
  }

  lemma ExecSnoc(s: State, acts: seq<Action>, a: Action)
    ensures Exec(s, acts + [a]) == Step(Exec(s, acts), a)
  {
    hide Step;
    assert (acts + [a])[..|acts|] == acts;
  }

  lemma ExecCons(s: State, a: Action, more: seq<Action>)
    ensures Exec(s, [a] + more) == Exec(Step(s, a), more)
  {
    hide Step;
    ExecSnoc(s, [], a);
    assert [] + [a] == [a];
    ExecAppend(s, [a], more);
  }

  /** The state after a run. */
  function Run(input: seq<InMsg>, acts: seq<Action>): State {
    Exec(Init(input), acts)
  }

  lemma RunAppend(input: seq<InMsg>, acts: seq<Action>, more: seq<Action>)
    ensures Run(input, acts + more) == Exec(Run(input, acts), more)
  {
    ExecAppend(Init(input), acts, more);
  }

  lemma RunSnoc(input: seq<InMsg>, acts: seq<Action>, a: Action)
    ensures Run(input, acts + [a]) == Step(Run(input, acts), a)
  {
    ExecSnoc(Init(input), acts, a);
  }
}
