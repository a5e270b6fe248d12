/**
 `OrderedAccess` and `ConversationShared` as objects: what each operation does to the
 shared state when nothing interferes. `Core` is the value the transition system steps on.
 */
module Conversation {
  import opened Prelude
  import opened Tickets
  import opened ControlStream

  /** What `acquire` comes to: the guard, a wait, or the poison error. */
  datatype Acquired = Guard | Wait | SessionPoisoned

  class OrderedAccess {
    var nextTicket: nat
    var currentServing: nat
    /** For every guard dropped so far, whether the session was poisoned by then. */
    ghost var released: seq<bool>
    /** How many times the waiters have been notified. */
    ghost var wakeups: nat

    constructor ()
      ensures nextTicket == 0 && currentServing == 0 && released == [] && wakeups == 0
    {
      nextTicket, currentServing, released, wakeups := 0, 0, [], 0;
    }

    method NotifyWaiters()
      modifies this`wakeups
      ensures wakeups == old(wakeups) + 1
    {
      wakeups := wakeups + 1;
    }

    method TakeTicket() returns (ticket: nat)
      modifies this
      ensures ticket == old(nextTicket) && nextTicket == ticket + 1
      ensures currentServing == old(currentServing) && released == old(released) && wakeups == old(wakeups)
    {
      ticket := nextTicket;
      nextTicket := nextTicket + 1;
    }

    /** One turn of the loop in `acquire`. */
    method Acquire(ticket: nat, poisoned: bool) returns (r: Acquired)
      ensures r.SessionPoisoned? <==> poisoned
      ensures r.Guard? <==> !poisoned && currentServing == ticket
    {
      if poisoned { return SessionPoisoned; }
      if currentServing == ticket { return Guard; }
      return Wait;
    }

    /** Dropping the guard serves the next ticket and notifies its owner. */
    method DropGuard(ghost poisoned: bool)
      modifies this
      ensures currentServing == old(currentServing) + 1 && nextTicket == old(nextTicket)
      ensures released == old(released) + [poisoned] && wakeups == old(wakeups) + 1
    {
      currentServing, released := currentServing + 1, released + [poisoned];
      NotifyWaiters();
    }
  }

  /** The sending half of the control stream. `room` is how many more encode and flush calls
      succeed; the first one that does not may leave a torn field. */
  class Sink {
    var wire: seq<Field>
    var room: nat
    const tears: bool

    constructor (room: nat, tears: bool)
      ensures wire == [] && this.room == room && this.tears == tears
    {
      wire := [];
      this.room := room;
      this.tears := tears;
    }

    /** What an encode call leaves behind when it fails. */
    function Debris(): seq<Field> { if tears then [Torn] else [] }

    method Encode(f: Field) returns (ok: bool)
      modifies this
      ensures ok == (old(room) > 0)
      ensures wire == old(wire) + if ok then [f] else if tears then [Torn] else []
      ensures room == if ok then old(room) - 1 else 0
    {
      ok := room > 0;
      if ok {
        wire, room := wire + [f], room - 1;
      } else {
        wire := wire + Debris();
      }
    }

    method Flush() returns (ok: bool)
      modifies this
      ensures ok == (old(room) > 0) && wire == old(wire)
      ensures room == if ok then old(room) - 1 else 0
    {
      ok := room > 0;
      if ok { room := room - 1; }
    }
  }

  /** `n` guards dropped in an intact session. */
  function Intact(n: nat): seq<bool> {
    if n == 0 then [] else Intact(n - 1) + [false]
  }

  /** `n` failure replies. */
  function Failures(n: nat): seq<Field> {
    if n == 0 then [] else Failures(n - 1) + FAILURE
  }

  /** What a call that sends one message leaves, and how its ticket and its write came out. */
  datatype Called = Called(core: Shared, wire: seq<Field>, acquired: Acquired, ok: bool)

  /**
   A call that writes `m` as the owner of `ticket`, on a stream with `room` for that many more
   calls, nothing interfering. The queued failures go out first. An error in one of them poisons
   the session behind the ticket it was for; an error in `m` poisons it and retires `ticket`; a
   poisoned session loses the first queued ticket.
   */
  function WriterCall(core: Shared, wire: seq<Field>, room: nat, debris: seq<Field>,
                      ticket: nat, m: seq<Field>): Called {
    var n := RunLength(core.autoFailures, core.wServing);
    var drained := core.(wServing := core.wServing + n, autoFailures := core.autoFailures - Span(core.wServing, n));
    if core.poisoned then
      Called(if n == 0 then core else core.Unqueue(core.wServing), wire, SessionPoisoned, false)
    else if room < 2 * n then
      var k := room / 2;
      Called(core.(wServing := core.wServing + k + 1, poisoned := true,
                   autoFailures := core.autoFailures - Span(core.wServing, k + 1)),
             wire + Failures(k) + (if room % 2 == 0 then debris else FAILURE), SessionPoisoned, false)
    else if drained.wServing != ticket then
      Called(drained, wire + Failures(n), Wait, false)
    else
      var left := room - 2 * n;
      if |m| < left then
        Called(drained.ReleaseWriter(), wire + Failures(n) + m, Guard, true)
      else
        Called(drained.Poison().ReleaseWriter(),
               wire + Failures(n) + (if left < |m| then m[..left] + debris else m), Guard, false)
  }

  class ConversationShared {
    const reader: OrderedAccess
    const writer: OrderedAccess
    const sink: Sink
    var poisoned: bool
    var autoFailures: set<nat>

    constructor (sink: Sink)
      ensures fresh(reader) && fresh(writer) && this.sink == sink
      ensures Valid() && Core() == FRESH
    {
      reader := new OrderedAccess();
      writer := new OrderedAccess();
      this.sink := sink;
      poisoned, autoFailures := false, {};
    }

    predicate Valid() { reader != writer }

    function Core(): Shared
      reads this, reader, writer
    {
      Shared(reader.nextTicket, reader.currentServing, writer.nextTicket, writer.currentServing,
             poisoned, autoFailures)
    }

    /** Every waiter, of either stream, hears of the poison. */
    method Poison()
      requires Valid()
      modifies this`poisoned, reader`wakeups, writer`wakeups
      ensures Core() == old(Core()).Poison()
      ensures reader.wakeups == old(reader.wakeups) + 1 && writer.wakeups == old(writer.wakeups) + 1
    {
      poisoned := true;
      reader.NotifyWaiters();
      writer.NotifyWaiters();
    }

    /** Both tickets are taken under one lock. */
    method AllocateRequestTicketPair() returns (writeTicket: nat, readTicket: nat)
      requires Valid()
      modifies reader, writer
      ensures writeTicket == old(Core()).wNext && readTicket == old(Core()).rNext
      ensures Core() == old(Core()).TakeWriter().TakeReader()
    {
      writeTicket := writer.TakeTicket();
      readTicket := reader.TakeTicket();
    }

    /** A DecodedGlobalRequest is dropped without an answer. */
    method DropDecoded(ticket: nat)
      modifies this`autoFailures, writer`wakeups
      ensures Core() == old(Core()).Queue(ticket) && writer.wakeups == old(writer.wakeups) + 1
    {
      autoFailures := autoFailures + {ticket};
      writer.NotifyWaiters();
    }

    /**
     Sends a failure for every queued ticket in turn, until the served ticket is not queued.

     With an intact session and stream it writes exactly one failure for each ticket of the
     longest run from the served one, removes just those and stops just past them. If an
     encode or flush call fails, the tickets up to and including the failing one are gone
     and the session is poisoned, but only after the failing ticket's guard was dropped. In a
     poisoned session the first one is gone all the same.
     */
    method DrainAutoFailures() returns (ok: bool)
      requires Valid()
      modifies this, writer, reader`wakeups, sink
      ensures var n := RunLength(old(autoFailures), old(writer.currentServing));
              ok == (n == 0 || (!old(poisoned) && 2 * n <= old(sink.room)))
      ensures var n := RunLength(old(autoFailures), old(writer.currentServing));
              ok ==> && Core() == old(Core()).(wServing := old(writer.currentServing) + n,
                                               autoFailures := old(autoFailures) - Span(old(writer.currentServing), n))
                     && sink.wire == old(sink.wire) + Failures(n) && sink.room == old(sink.room) - 2 * n
                     && writer.released == old(writer.released) + Intact(n)
                     && writer.wakeups == old(writer.wakeups) + n
      ensures var k := old(sink.room) / 2;
              !ok && !old(poisoned) ==>
                && Core() == old(Core()).(wServing := old(writer.currentServing) + k + 1, poisoned := true,
                                          autoFailures := old(autoFailures) - Span(old(writer.currentServing), k + 1))
                && sink.wire == old(sink.wire) + Failures(k)
                                + (if old(sink.room) % 2 == 0 then sink.Debris() else FAILURE)
                && writer.released == old(writer.released) + Intact(k + 1)
                && writer.wakeups == old(writer.wakeups) + k + 2 && reader.wakeups == old(reader.wakeups) + 1
      ensures !ok && old(poisoned) ==>
                && Core() == old(Core()).Unqueue(old(writer.currentServing)) && sink.wire == old(sink.wire)
                && writer.released == old(writer.released)
    {
      ghost var from, queue, room := writer.currentServing, autoFailures, sink.room;
      ghost var j := 0;
      while true
        invariant writer.currentServing == from + j && writer.nextTicket == old(writer.nextTicket)
        invariant autoFailures == queue - Span(from, j)
        invariant RunLength(queue, from) == j + RunLength(autoFailures, from + j)
        invariant poisoned == old(poisoned) && (poisoned ==> j == 0)
        invariant 2 * j <= room && sink.room == room - 2 * j
        invariant sink.wire == old(sink.wire) + Failures(j)
        invariant writer.released == old(writer.released) + Intact(j)
        invariant writer.wakeups == old(writer.wakeups) + j && reader.wakeups == old(reader.wakeups)
        decreases RunLength(autoFailures, from + j)
      {
        var current := writer.currentServing;
        var shouldDrain := current in autoFailures;
        if !shouldDrain { break; }
        autoFailures := autoFailures - {current};
        assert autoFailures == queue - Span(from, j + 1);

        var acquired := writer.Acquire(current, poisoned);
        if acquired.SessionPoisoned? { return false; }

        ok := sink.Encode(FAILURE[0]);
        if ok { ok := sink.Flush(); }
        writer.DropGuard(poisoned);
        if !ok {
          Poison();
          return;
        }
        j := j + 1;
      }
      ok := true;
    }

    /** One turn of the loop in acquire_writer, nothing interfering. */
    method AcquireWriter(ticket: nat) returns (r: Acquired)
      requires Valid()
      modifies this, writer, reader`wakeups, sink
      ensures var n := RunLength(old(autoFailures), old(writer.currentServing));
              !old(poisoned) && 2 * n <= old(sink.room) ==>
                && (if old(writer.currentServing) + n == ticket then r == Guard else r == Wait)
                && Core() == old(Core()).(wServing := old(writer.currentServing) + n,
                                          autoFailures := old(autoFailures) - Span(old(writer.currentServing), n))
                && sink.wire == old(sink.wire) + Failures(n) && sink.room == old(sink.room) - 2 * n
      ensures var n := RunLength(old(autoFailures), old(writer.currentServing));
              old(poisoned) ==>
                && r == SessionPoisoned && sink.wire == old(sink.wire)
                && Core() == if n == 0 then old(Core()) else old(Core()).Unqueue(old(writer.currentServing))
      ensures var n := RunLength(old(autoFailures), old(writer.currentServing)); var k := old(sink.room) / 2;
              !old(poisoned) && old(sink.room) < 2 * n ==>
                && r == SessionPoisoned
                && Core() == old(Core()).(wServing := old(writer.currentServing) + k + 1, poisoned := true,
                                          autoFailures := old(autoFailures) - Span(old(writer.currentServing), k + 1))
                && sink.wire == old(sink.wire) + Failures(k)
                                + (if old(sink.room) % 2 == 0 then sink.Debris() else FAILURE)
    {
      var drained := DrainAutoFailures();
      if !drained { return SessionPoisoned; }
      if writer.currentServing == ticket {
        r := writer.Acquire(ticket, poisoned);
        return;
      }
      // The counter is compared once more after the notification is enabled; with nothing
      // interfering it has not moved.
      if poisoned { return SessionPoisoned; }
      r := Wait;
    }

    /**
     Write one message as the holder of `ticket`, as the send, notify and respond calls do:
     every field, then a flush; on any error the session is poisoned, and everybody told so,
     before the guard drops.
     */
    method WriteMessage(ticket: nat, message: seq<Field>) returns (ok: bool)
      requires Valid() && writer.currentServing == ticket
      modifies this, writer, reader`wakeups, sink
      ensures ok == (|message| < old(sink.room))
      ensures ok ==> Core() == old(Core()).ReleaseWriter() && sink.wire == old(sink.wire) + message
      ensures writer.released == old(writer.released) + [old(poisoned) || !ok]
      ensures !ok ==>
                && Core() == old(Core()).Poison().ReleaseWriter()
                && sink.wire == old(sink.wire) + (if old(sink.room) < |message|
                                                  then message[..old(sink.room)] + sink.Debris() else message)
    {
      var i := 0;
      ok := true;
      while ok && i < |message|
        invariant 0 <= i <= |message| && Core() == old(Core()) && writer.released == old(writer.released)
        invariant ok ==> i <= old(sink.room) && sink.room == old(sink.room) - i
                         && sink.wire == old(sink.wire) + message[..i]
        invariant !ok ==> old(sink.room) == i < |message|
                          && sink.wire == old(sink.wire) + message[..i] + sink.Debris()
      {
        ok := sink.Encode(message[i]);
        if ok { i := i + 1; }
      }
      if ok { ok := sink.Flush(); }
      if !ok { Poison(); }
      writer.DropGuard(poisoned);
    }

    /** send_global_notification with nothing interfering, whatever the stream and the session do. */
    method SendGlobalNotification(name: string, data: seq<int>) returns (r: Acquired, ok: bool)
      requires Valid()
      modifies this, writer, reader`wakeups, sink
      ensures var w := WriterCall(old(Core()).TakeWriter(), old(sink.wire), old(sink.room), sink.Debris(),
                                  old(writer.nextTicket), RequestFields(name, false, data));
              Core() == w.core && sink.wire == w.wire && r == w.acquired && ok == w.ok
    {
      var ticket := writer.TakeTicket();
      r := AcquireWriter(ticket);
      ok := false;
      if r.Guard? { ok := WriteMessage(ticket, RequestFields(name, false, data)); }
    }

    /**
     send_global_request with nothing interfering; `response` is what arrives. The guard of the
     reader is released whatever that is, and not even an unreadable response poisons the session.
     */
    method SendGlobalRequest(name: string, data: seq<int>, response: Response) returns (r: RequestOutcome)
      requires Valid()
      modifies this, reader, writer, sink
      ensures var w := WriterCall(old(Core()).TakeWriter().TakeReader(), old(sink.wire), old(sink.room), sink.Debris(),
                                  old(writer.nextTicket), RequestFields(name, true, data));
              && sink.wire == w.wire
              && if !w.ok then
                   Core() == w.core && r == if w.acquired.Guard? then SendFailed else NotSent(w.acquired)
                 else if old(reader.currentServing) != old(reader.nextTicket) then
                   Core() == w.core && r == NotRead(Wait)
                 else
                   Core() == w.core.ReleaseReader() && r == Read(AnswerOf(response))
      ensures r.Read? ==>
                match r.answer
                case Success(v) => response == Found(81, Some(v))
                case Refused => response.Found? && response.messageType == 82
                case Unexpected(t) => t !in {81, 82} && response == Found(t, response.payload)
                case Undecoded => response.Unreadable? || response == Found(81, None)
    {
      var writeTicket, readTicket := AllocateRequestTicketPair();
      var acquired := AcquireWriter(writeTicket);
      if !acquired.Guard? {
        return NotSent(acquired);
      }
      var ok := WriteMessage(writeTicket, RequestFields(name, true, data));
      if !ok {
        return SendFailed;
      }
      acquired := reader.Acquire(readTicket, poisoned);
      if !acquired.Guard? {
        return NotRead(acquired);
      }
      if response.Unreadable? {
        r := Read(Undecoded);
      } else if response.messageType == REQUEST_SUCCESS {
        r := Read(if response.payload.Some? then Success(response.payload.value) else Undecoded);
      } else if response.messageType == REQUEST_FAILURE {
        r := Read(Refused);
      } else {
        r := Read(Unexpected(response.messageType));
      }
      reader.DropGuard(poisoned);
    }
  }

  /** What the reader finds where the response to a request should be: no message type at all,
      or one, with a payload that decodes or not. */
  datatype Response = Unreadable | Found(messageType: nat, payload: Option<seq<int>>)

  datatype Answer = Success(value: seq<int>) | Refused | Unexpected(messageType: nat) | Undecoded

  /** The call ends with the payload of a success, a refusal, or one of its decode errors. */
  function AnswerOf(response: Response): Answer {
    match response
    case Found(81, Some(v)) => Success(v)
    case Found(82, _) => Refused
    case Found(t, _) => if t == 81 then Undecoded else Unexpected(t)
    case Unreadable => Undecoded
  }

  /** Every response has its answer, by its message number. */
  lemma AnswerByNumber(t: nat, payload: Option<seq<int>>)
    ensures AnswerOf(Unreadable) == Undecoded
    ensures AnswerOf(Found(t, payload)) ==
            match t
            case 81 => if payload.Some? then Success(payload.value) else Undecoded
            case 82 => Refused
            case _ => Unexpected(t)
  {}

  /** What is found of a message that was written whole. */
  function ResponseIn(m: seq<Field>): Response {
    if m == [] || !m[0].MsgType? then Unreadable
    else Found(m[0].code, if |m| > 1 && m[1].Payload? then Some(m[1].data) else None)
  }

  /** A request that is answered at the other end comes back as it was answered. */
  lemma AnswerComesBack(d: Decision)
    ensures AnswerOf(ResponseIn(ReplyFields(d))) ==
            match d
            case Accepted(data) => Success(data)
            case Rejected => Refused
            case Dropped => Refused
  {}

  datatype RequestOutcome = NotSent(why: Acquired) | SendFailed | NotRead(acquired: Acquired) | Read(answer: Answer)

  // ----- the same drain as a run of the transition system ------------------

  function DrainOne(id: nat): seq<Action> {
    [DrainLoad(id), DrainTake(id), LoadPoison(id), LoadServing(id), WriteField(id), Finish(id)]
  }

  function DrainRun(id: nat, n: nat): seq<Action> {
    if n == 0 then [] else DrainRun(id, n - 1) + DrainOne(id)
  }

  /** An agent at the top of the drain loop, and what the loop works on. */
  predicate AtLoop(s: State, id: nat) {
    && id in s.agents && s.agents[id].Writer? && s.agents[id].pc.Loop?
    && !s.sh.poisoned && s.h.cur == []
  }

  lemma TakesOne(s: State, id: nat)
    requires AtLoop(s, id) && s.sh.wServing in s.sh.autoFailures
    ensures Step(Step(Step(Step(s, DrainLoad(id)), DrainTake(id)), LoadPoison(id)), LoadServing(id))
            == Put(s.(sh := s.sh.Unqueue(s.sh.wServing)), id, s.agents[id].(pc := DrainHeld(s.sh.wServing, 0)))
  {
    var c, g := s.sh.wServing, s.agents[id];
    var t := s.(sh := s.sh.Unqueue(c));
    assert Step(s, DrainLoad(id)) == Put(s, id, g.(pc := Loaded(c)));
    assert Step(Put(s, id, g.(pc := Loaded(c))), DrainTake(id)) == Put(t, id, g.(pc := Took(c)));
    assert Step(Put(t, id, g.(pc := Took(c))), LoadPoison(id)) == Put(t, id, g.(pc := TookClear(c)));
  }

  lemma WritesOne(s: State, id: nat)
    requires id in s.agents && s.agents[id].Writer? && s.agents[id].pc == DrainHeld(s.sh.wServing, 0)
    requires s.h.cur == []
    ensures var s' := Step(Step(s, WriteField(id)), Finish(id));
            && s' == s.(sh := s.sh.ReleaseWriter(), h := s'.h, agents := s'.agents)
            && s'.agents == s.agents[id := s.agents[id].(pc := Loop)]
            && s'.h.cur == [] && s'.h.wire == s.h.wire + FAILURE
  {
    var t := Step(s, WriteField(id));
    assert t == Put(Emit(s, FAILURE[0]), id, s.agents[id].(pc := DrainHeld(s.sh.wServing, 1)));
  }

  lemma DrainsOne(s: State, id: nat)
    requires AtLoop(s, id) && s.sh.wServing in s.sh.autoFailures
    ensures var s' := Exec(s, DrainOne(id));
            && AtLoop(s', id) && s'.agents == s.agents
            && s'.sh == s.sh.Unqueue(s.sh.wServing).ReleaseWriter() && s'.h.wire == s.h.wire + FAILURE
  {
    TakesOne(s, id);
    var t := Put(s.(sh := s.sh.Unqueue(s.sh.wServing)), id, s.agents[id].(pc := DrainHeld(s.sh.wServing, 0)));
    WritesOne(t, id);
    ExecSix(s, DrainLoad(id), DrainTake(id), LoadPoison(id), LoadServing(id), WriteField(id), Finish(id));
  }

  lemma ExecSix(s: State, a: Action, b: Action, c: Action, d: Action, e: Action, f: Action)
    ensures Exec(s, [a, b, c, d, e, f]) == Step(Step(Step(Step(Step(Step(s, a), b), c), d), e), f)
  {
    hide Step;
    ExecSnoc(s, [], a);
    ExecSnoc(s, [a], b);
    ExecSnoc(s, [a, b], c);
    ExecSnoc(s, [a, b, c], d);
    ExecSnoc(s, [a, b, c, d], e);
    ExecSnoc(s, [a, b, c, d, e], f);
    assert [] + [a] == [a] && [a] + [b] == [a, b] && [a, b] + [c] == [a, b, c];
    assert [a, b, c] + [d] == [a, b, c, d] && [a, b, c, d] + [e] == [a, b, c, d, e];
    assert [a, b, c, d, e] + [f] == [a, b, c, d, e, f];
  }

  /** Left alone, an agent of the transition system drains exactly what DrainAutoFailures does. */
  lemma {:induction false} DrainAlone(s: State, id: nat, n: nat)
    requires AtLoop(s, id) && n <= RunLength(s.sh.autoFailures, s.sh.wServing)
    ensures var s' := Exec(s, DrainRun(id, n));
            && AtLoop(s', id) && s'.agents == s.agents
            && s'.sh == s.sh.(wServing := s.sh.wServing + n,
                              autoFailures := s.sh.autoFailures - Span(s.sh.wServing, n))
            && s'.h.wire == s.h.wire + Failures(n)
  {
    hide Step;
    if n > 0 {
      DrainAlone(s, id, n - 1);
      var t := Exec(s, DrainRun(id, n - 1));
      RunLengthIsLongest(s.sh.autoFailures, s.sh.wServing);
      assert t.sh.wServing in Span(s.sh.wServing, RunLength(s.sh.autoFailures, s.sh.wServing));
      DrainsOne(t, id);
      ExecAppend(s, DrainRun(id, n - 1), DrainOne(id));
      assert s.sh.autoFailures - Span(s.sh.wServing, n - 1) - {t.sh.wServing}
          == s.sh.autoFailures - Span(s.sh.wServing, n);
    }
  }
}
