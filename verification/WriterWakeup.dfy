/**
 The loop of `acquire_writer` with every access a step of its own, beside handles that are
 answered or dropped. The loop does not look at the queue again between enabling its
 notification and waiting: in a run that hangs, every writer left has missed a notification
 that came after it last loaded the counter to drain and before it enabled its own.
 WriterHangs says from which states a run can hang.
 */
module WriterWakeup {
  import Wakeup

  datatype Pc =
    | Top                // draining: about to load the counter
    | Loaded(cur: nat)   // ... about to remove that ticket from the queue
    | Removed(cur: nat)  // ... removed; inside acquire, about to load the flag
    | Sending(cur: nat)  // ... guard held, about to send the failure and release it
    | Sent               // ... counter advanced, waiters to be notified
    | Failing            // sending failed: counter advanced, waiters to be notified
    | FailTold           // ... poison to be stored
    | FailStored         // ... waiters to be notified again
    | Clear              // drained: first comparison with the counter
    | Late               // about to enable the notification
    | Enabled            // about to load the flag
    | Checked            // second comparison
    | Parked             // waiting
    | Turn               // served: about to acquire

  /**
   `missed` records that a notification came after the loop had last loaded the counter to
   drain and before it enabled its own; the code has no such field and no step depends on it.
   */
  datatype Task =
    | Writer(ticket: nat, pc: Pc, notified: bool, missed: bool)
    | Holder(ticket: nat)         // has the guard
    | HolderStored(ticket: nat)   // failing: poison stored, waiters to be notified
    | HolderTold(ticket: nat)     // ... guard about to drop
    | Releasing                   // counter advanced, waiters to be notified
    | Handle(ticket: nat)         // a decoded request
    | Queued                      // dropped: ticket queued, waiters to be notified
    | Poisoner                    // a task that will poison the session
    | PoisonerStored
    | Done

  datatype State = State(serving: nat, poisoned: bool, queue: set<nat>, tasks: seq<Task>)

  predicate IsEnabled(pc: Pc) {
    pc.Enabled? || pc.Checked? || pc.Parked?
  }

  /** Between loading the counter to drain and enabling, with nothing found to drain. */
  predicate InWindow(pc: Pc) {
    pc.Loaded? || pc.Clear? || pc.Late?
  }

  function Notified(t: Task): Task {
    if !t.Writer? then t
    else if IsEnabled(t.pc) then t.(notified := true)
    else if InWindow(t.pc) then t.(missed := true)
    else t
  }

  function Notify(ts: seq<Task>): (r: seq<Task>)
    ensures |r| == |ts|
    ensures forall i :: 0 <= i < |ts| ==> r[i] == Notified(ts[i])
  {
    if ts == [] then [] else Notify(ts[..|ts| - 1]) + [Notified(ts[|ts| - 1])]
  }

  predicate CanMove(t: Task) {
    !t.Done? && !(t.Writer? && t.pc.Parked? && !t.notified)
  }

  predicate WillNotify(t: Task) {
    || t.HolderStored? || t.Releasing? || t.Queued? || t.PoisonerStored?
    || (t.Writer? && (t.pc.Sent? || t.pc.Failing? || t.pc.FailStored?))
  }

  /**
   One step of task `i`; `fails` says whether a write fails, and of a handle whether it is
   dropped. The comparison inside `acquire` is not a step: for a removed ticket and for one
   found served it succeeds, as `TaskOk` says.
   */
  function Step(s: State, i: nat, fails: bool): State
    requires i < |s.tasks| && CanMove(s.tasks[i])
  {
    Move(if WillNotify(s.tasks[i]) then s.(tasks := Notify(s.tasks)) else s, i, fails)
  }

  function Move(s: State, i: nat, fails: bool): State
    requires i < |s.tasks|
  {
    match s.tasks[i]
    case Writer(_, _, _, _) => WriterMove(s, i, fails)
    case Holder(t) =>
      if fails then Set(s, i, HolderStored(t)).(poisoned := true)
      else Set(s, i, Releasing).(serving := s.serving + 1)
    case HolderStored(t) => Set(s, i, HolderTold(t))
    case HolderTold(t) => Set(s, i, Releasing).(serving := s.serving + 1)
    case Releasing => Set(s, i, Done)
    case Handle(t) =>
      if fails then Set(s, i, Queued).(queue := s.queue + {t}) else Set(s, i, Writer(t, Top, false, false))
    case Queued => Set(s, i, Done)
    case Poisoner => Set(s, i, PoisonerStored).(poisoned := true)
    case PoisonerStored => Set(s, i, Done)
    case Done => s
  }

  function WriterMove(s: State, i: nat, fails: bool): State
    requires i < |s.tasks| && s.tasks[i].Writer?
  {
    var w := s.tasks[i];
    match w.pc
    case Top => Set(s, i, Writer(w.ticket, Loaded(s.serving), false, false))
    case Loaded(cur) =>
      if cur in s.queue then Set(s, i, w.(pc := Removed(cur))).(queue := s.queue - {cur})
      else Set(s, i, w.(pc := Clear))
    case Removed(cur) =>
      Set(s, i, if s.poisoned then Done else w.(pc := Sending(cur)))
    case Sending(cur) => Set(s, i, w.(pc := if fails then Failing else Sent)).(serving := s.serving + 1)
    case Sent => Set(s, i, w.(pc := Top))
    case Failing => Set(s, i, w.(pc := FailTold))
    case FailTold => Set(s, i, w.(pc := FailStored)).(poisoned := true)
    case FailStored => Set(s, i, Done)
    case Clear => Set(s, i, w.(pc := if s.serving == w.ticket then Turn else Late))
    case Late => Set(s, i, w.(pc := Enabled, notified := false))
    case Enabled => Set(s, i, if s.poisoned then Done else w.(pc := Checked))
    case Checked => Set(s, i, w.(pc := if s.serving == w.ticket then Turn else Parked))
    case Parked => Set(s, i, w.(pc := Top))
    case Turn => Set(s, i, if s.poisoned then Done else Holder(w.ticket))
  }

  function Set(s: State, i: nat, t: Task): State
    requires i < |s.tasks|
  {
    s.(tasks := s.tasks[i := t])
  }

  // ----- tickets -----------------------------------------------------------

  predicate IsRemoved(t: Task) {
    t.Writer? && (t.pc.Removed? || t.pc.Sending?)
  }

  predicate HasTicket(t: Task) {
    t.Writer? || t.Holder? || t.HolderStored? || t.HolderTold? || t.Handle?
  }

  /** A drainer also answers for the ticket it has removed. */
  predicate Owns(t: Task, u: nat) {
    (HasTicket(t) && t.ticket == u) || (IsRemoved(t) && t.pc.cur == u)
  }

  /** What a task has seen of the counter and the flag still holds. */
  predicate TaskOk(serving: nat, poisoned: bool, t: Task) {
    && (t.Holder? || t.HolderStored? || t.HolderTold? ==> t.ticket == serving)
    && (t.Writer? ==>
          match t.pc
          case Loaded(cur) => cur <= serving
          case Removed(cur) => cur == serving && t.ticket != serving
          case Sending(cur) => cur == serving && t.ticket != serving
          case FailStored => poisoned
          case Turn => t.ticket == serving
          case _ => true)
  }

  ghost predicate Owned(s: State, u: nat) {
    u in s.queue || exists i :: 0 <= i < |s.tasks| && Owns(s.tasks[i], u)
  }

  ghost predicate TicketsOk(s: State, n: nat) {
    && (forall i, j, u: nat ::
          0 <= i < |s.tasks| && 0 <= j < |s.tasks| && Owns(s.tasks[i], u) && Owns(s.tasks[j], u) ==> i == j)
    && (forall i, u: nat :: 0 <= i < |s.tasks| && Owns(s.tasks[i], u) ==> s.serving <= u < n)
    && (forall i, u: nat :: 0 <= i < |s.tasks| && Owns(s.tasks[i], u) ==> u !in s.queue)
    && (forall u :: u in s.queue ==> s.serving <= u < n)
    && (forall i :: 0 <= i < |s.tasks| ==> TaskOk(s.serving, s.poisoned, s.tasks[i]))
  }

  /** No ticket is lost while the session is not poisoned. */
  ghost predicate Conserved(s: State, n: nat) {
    !s.poisoned ==> forall u: nat :: s.serving <= u < n ==> Owned(s, u)
  }

  // ----- wakeups -----------------------------------------------------------

  ghost predicate Pending(s: State) {
    exists i :: 0 <= i < |s.tasks| && WillNotify(s.tasks[i])
  }

  /** A writer that is served, or whose session is poisoned, does not wait in vain. */
  predicate TurnSeen(s: State, w: Task)
    requires w.Writer?
  {
    && (w.pc.Parked? && w.ticket == s.serving ==> w.notified)
    && ((w.pc.Checked? || w.pc.Parked?) && s.poisoned ==> w.notified)
  }

  /** One that leaves the served ticket in the queue has been notified or has missed a notification. */
  predicate QueueSeen(s: State, w: Task)
    requires w.Writer?
  {
    s.serving in s.queue ==>
      && (InWindow(w.pc) && w.pc != Loaded(s.serving) ==> w.missed)
      && (IsEnabled(w.pc) ==> w.notified || w.missed)
  }

  ghost predicate WakeupsOk(s: State) {
    forall i :: 0 <= i < |s.tasks| && s.tasks[i].Writer? && !Pending(s) ==>
      TurnSeen(s, s.tasks[i]) && QueueSeen(s, s.tasks[i])
  }

  ghost predicate Inv(s: State, n: nat) {
    TicketsOk(s, n) && Conserved(s, n) && WakeupsOk(s)
  }

  /**
   A state to start from: writers at the top of their loops, handles, a holder of the guard,
   tasks that will poison the session, and some of the tickets queued already.
   */
  ghost predicate Init(s: State, n: nat) {
    && (forall i :: 0 <= i < |s.tasks| ==> Starts(s.tasks[i]))
    && TicketsOk(s, n) && Conserved(s, n)
  }

  predicate Starts(t: Task) {
    t.Poisoner? || t.Handle? || t.Holder? || t.Done? || (t.Writer? && t == Writer(t.ticket, Top, false, false))
  }

  // ----- steps -------------------------------------------------------------

  /** What a step does to the tickets: nothing, a drop, a removal from the queue or a release. */
  ghost predicate Moves(s: State, s': State, i: nat)
    requires i < |s.tasks|
  {
    && |s'.tasks| == |s.tasks| && s' == s.(queue := s'.queue, serving := s'.serving, poisoned := s'.poisoned,
                                           tasks := s.tasks[i := s'.tasks[i]])
    && (s.poisoned ==> s'.poisoned) && TaskOk(s'.serving, s'.poisoned, s'.tasks[i])
    && var t, t' := s.tasks[i], s'.tasks[i];
       || (s'.queue == s.queue && s'.serving == s.serving
           && forall u: nat :: (Owns(t', u) ==> Owns(t, u)) && (Owns(t, u) ==> Owns(t', u) || s'.poisoned))
       || (t.Handle? && Owns(t, t.ticket) && s'.queue == s.queue + {t.ticket} && s'.serving == s.serving
           && forall u: nat :: !Owns(t', u))
       || (s.serving in s.queue && s'.queue == s.queue - {s.serving} && s'.serving == s.serving
           && forall u: nat :: Owns(t', u) <==> Owns(t, u) || u == s.serving)
       || (Owns(t, s.serving) && s'.queue == s.queue && s'.serving == s.serving + 1
           && forall u: nat :: Owns(t', u) <==> Owns(t, u) && u != s.serving)
  }

  lemma StepMoves(s: State, i: nat, fails: bool, n: nat)
    requires TicketsOk(s, n) && i < |s.tasks|
    ensures Moves(s, Move(s, i, fails), i)
  {
    if s.tasks[i].Writer? {
      WriterMoves(s, i, fails, n);
    } else {
      hide WriterMove;
      assert TaskOk(s.serving, s.poisoned, s.tasks[i]);
      var s' := Move(s, i, fails);
      assert s'.tasks == s.tasks[i := s'.tasks[i]];
    }
  }

  lemma WriterMoves(s: State, i: nat, fails: bool, n: nat)
    requires TicketsOk(s, n) && i < |s.tasks| && s.tasks[i].Writer?
    ensures Moves(s, WriterMove(s, i, fails), i)
  {
    var t := s.tasks[i];
    var s' := WriterMove(s, i, fails);
    assert TaskOk(s.serving, s.poisoned, t) && Owns(t, t.ticket);
    assert s'.tasks == s.tasks[i := s'.tasks[i]];
  }

  lemma MovesKeep(s: State, s': State, i: nat, n: nat)
    requires TicketsOk(s, n) && i < |s.tasks| && Moves(s, s', i)
    ensures TicketsOk(s', n)
  {
    forall j | 0 <= j < |s.tasks| ensures TaskOk(s'.serving, s'.poisoned, s'.tasks[j]) {
      assert TaskOk(s.serving, s.poisoned, s.tasks[j]);
    }
    hide TaskOk, Owns;
  }

  lemma MovesConserve(s: State, s': State, i: nat, n: nat)
    requires TicketsOk(s, n) && Conserved(s, n) && i < |s.tasks| && Moves(s, s', i)
    ensures Conserved(s', n)
  {
    if !s'.poisoned {
      forall u: nat | s'.serving <= u < n ensures Owned(s', u) {
        assert Owned(s, u);
        if u !in s.queue {
          var j :| 0 <= j < |s.tasks| && Owns(s.tasks[j], u);
          assert Owns(s'.tasks[j], u) || u in s'.queue;
        } else if u !in s'.queue {
          assert Owns(s'.tasks[i], u);
        }
      }
    }
  }

  lemma NotifyKeeps(s: State, n: nat)
    requires TicketsOk(s, n)
    ensures var s' := s.(tasks := Notify(s.tasks)); TicketsOk(s', n) && (Conserved(s, n) ==> Conserved(s', n))
  {
    var s' := s.(tasks := Notify(s.tasks));
    forall i | 0 <= i < |s.tasks|
      ensures TaskOk(s.serving, s.poisoned, s'.tasks[i])
      ensures forall u: nat :: Owns(s'.tasks[i], u) <==> Owns(s.tasks[i], u)
    {
      assert TaskOk(s.serving, s.poisoned, s.tasks[i]) && s'.tasks[i] == Notified(s.tasks[i]);
    }
    hide TaskOk, Owns;
    if Conserved(s, n) {
      forall u: nat | !s.poisoned && s.serving <= u < n ensures Owned(s', u) {
        assert Owned(s, u);
      }
    }
  }

  lemma TicketsKept(s: State, i: nat, fails: bool, n: nat)
    requires TicketsOk(s, n) && Conserved(s, n) && i < |s.tasks| && CanMove(s.tasks[i])
    ensures TicketsOk(Step(s, i, fails), n) && Conserved(Step(s, i, fails), n)
  {
    hide TicketsOk, Conserved, Moves, Move;
    NotifyKeeps(s, n);
    var s1 := if WillNotify(s.tasks[i]) then s.(tasks := Notify(s.tasks)) else s;
    StepMoves(s1, i, fails, n);
    MovesKeep(s1, Move(s1, i, fails), i, n);
    MovesConserve(s1, Move(s1, i, fails), i, n);
  }

  predicate Sees(s: State, t: Task) {
    t.Writer? ==> TurnSeen(s, t) && QueueSeen(s, t)
  }

  lemma NotifySees(s: State, t: Task)
    ensures Sees(s, Notified(t))
  {}

  /** Whoever gives the others something to see will notify them. */
  lemma MoveSees(s: State, i: nat, fails: bool)
    requires i < |s.tasks| && CanMove(s.tasks[i]) && TaskOk(s.serving, s.poisoned, s.tasks[i])
    ensures var s', told := Move(s, i, fails), WillNotify(s.tasks[i]);
            && (told || !WillNotify(s'.tasks[i]) ==>
                  s'.serving == s.serving && s'.poisoned == s.poisoned && s'.queue <= s.queue)
            && (told || Sees(s, s.tasks[i]) ==> WillNotify(s'.tasks[i]) || Sees(s', s'.tasks[i]))
            && (told ==> !WillNotify(s'.tasks[i]))
            && forall j :: 0 <= j < |s.tasks| && j != i ==> s'.tasks[j] == s.tasks[j]
  {}

  lemma SeenStays(s: State, s': State, t: Task)
    requires Sees(s, t) && s'.serving == s.serving && s'.poisoned == s.poisoned && s'.queue <= s.queue
    ensures Sees(s', t)
  {}

  /** A notification shows everybody what there is to see. */
  lemma ToldWakeups(s: State, i: nat, fails: bool)
    requires i < |s.tasks| && WillNotify(s.tasks[i]) && TaskOk(s.serving, s.poisoned, s.tasks[i])
    ensures WakeupsOk(Step(s, i, fails))
  {
    var s1 := s.(tasks := Notify(s.tasks));
    MovedTask(s, i);
    MoveSees(s1, i, fails);
    hide Sees, Move, TaskOk, Notified, WillNotify;
    var s' := Move(s1, i, fails);
    forall j | 0 <= j < |s'.tasks| && j != i ensures Sees(s', s'.tasks[j]) {
      NotifySees(s1, s.tasks[j]);
      SeenStays(s1, s', s'.tasks[j]);
    }
    AllSee(s');
  }

  /** Any other step shows nothing new, or leaves a notification to come. */
  lemma QuietWakeups(s: State, i: nat, fails: bool)
    requires i < |s.tasks| && CanMove(s.tasks[i]) && !WillNotify(s.tasks[i])
    requires TaskOk(s.serving, s.poisoned, s.tasks[i]) && WakeupsOk(s)
    ensures WakeupsOk(Step(s, i, fails))
  {
    assert !Pending(s) ==> forall j :: 0 <= j < |s.tasks| ==> Sees(s, s.tasks[j]);
    MoveSees(s, i, fails);
    hide Sees, Move, TaskOk, WillNotify, CanMove, WakeupsOk;
    var s' := Move(s, i, fails);
    if Pending(s) {
      var k :| 0 <= k < |s.tasks| && WillNotify(s.tasks[k]);
      assert WillNotify(s'.tasks[k]);
    } else if !WillNotify(s'.tasks[i]) {
      forall j | 0 <= j < |s'.tasks| && j != i ensures Sees(s', s'.tasks[j]) {
        SeenStays(s, s', s'.tasks[j]);
      }
    }
    AllSee(s');
  }

  lemma WakeupsKept(s: State, i: nat, fails: bool, n: nat)
    requires Inv(s, n) && i < |s.tasks| && CanMove(s.tasks[i])
    ensures WakeupsOk(Step(s, i, fails))
  {
    hide Step, WakeupsOk, TaskOk, Conserved;
    if WillNotify(s.tasks[i]) { ToldWakeups(s, i, fails); } else { QuietWakeups(s, i, fails); }
  }

  /** A task that notifies is not itself notified. */
  lemma MovedTask(s: State, i: nat)
    requires i < |s.tasks|
    ensures WillNotify(s.tasks[i]) ==> Notify(s.tasks)[i] == s.tasks[i]
  {}

  lemma AllSee(s: State)
    requires !Pending(s) ==> forall j :: 0 <= j < |s.tasks| ==> Sees(s, s.tasks[j])
    ensures WakeupsOk(s)
  {}

  // ----- runs --------------------------------------------------------------

  ghost predicate Next(s: State, s': State) {
    exists i: nat, fails: bool :: i < |s.tasks| && CanMove(s.tasks[i]) && s' == Step(s, i, fails)
  }

  ghost predicate IsRun(ss: seq<State>, n: nat) {
    && |ss| > 0 && Init(ss[0], n)
    && forall k :: 0 <= k < |ss| - 1 ==> Next(ss[k], ss[k + 1])
  }

  lemma {:induction false} RunKept(ss: seq<State>, n: nat)
    requires IsRun(ss, n)
    ensures Inv(ss[|ss| - 1], n)
  {
    hide Step, TicketsOk, Conserved, CanMove;
    if |ss| > 1 {
      var k := |ss| - 2;
      RunKept(ss[..k + 1], n);
      assert Next(ss[k], ss[k + 1]);
      var i: nat, fails: bool :| i < |ss[k].tasks| && CanMove(ss[k].tasks[i]) && ss[k + 1] == Step(ss[k], i, fails);
      TicketsKept(ss[k], i, fails, n);
      WakeupsKept(ss[k], i, fails, n);
    }
  }

  ghost predicate Stuck(s: State) {
    forall i :: 0 <= i < |s.tasks| ==> !CanMove(s.tasks[i])
  }

  ghost predicate Ended(s: State) {
    forall i :: 0 <= i < |s.tasks| ==> s.tasks[i].Done?
  }

  /** Nobody can move, and not everybody is done. */
  ghost predicate Hangs(s: State) {
    Stuck(s) && !Ended(s)
  }

  /** A writer that waits behind the served ticket, and why. */
  predicate WaitsInVain(s: State, t: Task) {
    t.Writer? && t.pc.Parked? && t.ticket > s.serving && t.missed
  }

  /**
   A run goes on until every task has ended, unless it hangs with a sound session and the
   served ticket in the queue; whoever is left is then a parked writer behind that ticket that
   has missed a notification.
   */
  lemma HowARunHangs(ss: seq<State>, n: nat)
    requires IsRun(ss, n) && Hangs(ss[|ss| - 1])
    ensures var s := ss[|ss| - 1];
            && !s.poisoned && s.serving in s.queue
            && forall i :: 0 <= i < |s.tasks| && !s.tasks[i].Done? ==> WaitsInVain(s, s.tasks[i])
  {
    var s := ss[|ss| - 1];
    RunKept(ss, n);
    assert !Pending(s);
    assert forall i :: 0 <= i < |s.tasks| && s.tasks[i].Writer? ==> Owns(s.tasks[i], s.tasks[i].ticket);
    var i :| 0 <= i < |s.tasks| && !s.tasks[i].Done?;
    assert Owned(s, s.serving);
  }

  // ----- every run ends ----------------------------------------------------

  /** How many notify_waiters calls a task may still make; a queued ticket stands for one more. */
  function Notifications(t: Task): nat {
    match t
    case Writer(_, pc, _, _) =>
      (match pc
       case Removed(_) => 3
       case Sending(_) => 3
       case Sent => 3
       case FailTold => 1
       case FailStored => 1
       case _ => 2)
    case Holder(_) => 2
    case HolderStored(_) => 2
    case HolderTold(_) => 1
    case Releasing => 1
    case Handle(_) => 2
    case Queued => 1
    case Poisoner => 1
    case PoisonerStored => 1
    case Done => 0
  }

  /** How many steps a task may still take before the next notification. */
  function Steps(t: Task): nat {
    match t
    case Writer(_, pc, notified, _) =>
      (match pc
       case Top => 14
       case Loaded(_) => 13
       case Removed(_) => 12
       case Sending(_) => 11
       case Sent => 10
       case Failing => 10
       case FailTold => 9
       case FailStored => 8
       case Clear => 11
       case Late => 10
       case Enabled => 9 + (if notified then 9 else 0)
       case Checked => 8 + (if notified then 9 else 0)
       case Parked => 6 + (if notified then 9 else 0)
       case Turn => 7)
    case Holder(_) => 5
    case HolderStored(_) => 4
    case HolderTold(_) => 3
    case Releasing => 2
    case Handle(_) => 15
    case Queued => 1
    case Poisoner => 2
    case PoisonerStored => 1
    case Done => 0
  }

  lemma {:induction false} SumNotify(ts: seq<Task>)
    ensures Wakeup.Sum(Notifications, Notify(ts)) == Wakeup.Sum(Notifications, ts)
    ensures Wakeup.Sum(Steps, Notify(ts)) <= Wakeup.Sum(Steps, ts) + 9 * |ts|
  {
    hide Notifications, Steps;
    if ts != [] {
      var n := |ts| - 1;
      SumNotify(ts[..n]);
      assert Notify(ts)[..n] == Notify(ts[..n]);
      NotifyOne(ts[n]);
    }
  }

  lemma NotifyOne(t: Task)
    ensures Notifications(Notified(t)) == Notifications(t) && Steps(Notified(t)) <= Steps(t) + 9
  {}

  function Measure(s: State): nat {
    Wakeup.Weigh(9 * |s.tasks| + 5, Wakeup.Sum(Notifications, s.tasks) + |s.queue|, Wakeup.Sum(Steps, s.tasks))
  }

  /** A ticket enters the queue, leaves it, or neither: what that costs in notifications. */
  ghost predicate QueueCounts(s: State, s': State, n: nat, n': nat) {
    || (s'.queue == s.queue && n' <= n)
    || (exists u :: s'.queue == s.queue + {u} && n' < n)
    || (exists u :: u in s.queue && s'.queue == s.queue - {u} && n' <= n + 1)
  }

  lemma QueueSize(s: State, s': State, n: nat, n': nat)
    requires QueueCounts(s, s', n, n')
    ensures n' + |s'.queue| <= n + |s.queue|
  {}

  ghost predicate Counts(s: State, s': State, i: nat)
    requires i < |s.tasks| == |s'.tasks|
  {
    var t, t' := s.tasks[i], s'.tasks[i];
    && s'.tasks == s.tasks[i := t']
    && if WillNotify(t) then
         Notifications(t') < Notifications(t) && Steps(t') <= Steps(t) + 4 && s'.queue == s.queue
       else
         QueueCounts(s, s', Notifications(t), Notifications(t')) && Steps(t') < Steps(t)
  }

  lemma WriterCounts(s: State, i: nat, fails: bool)
    requires i < |s.tasks| && CanMove(s.tasks[i]) && s.tasks[i].Writer?
    ensures Counts(s, WriterMove(s, i, fails), i)
  {}

  lemma MoveCounts(s: State, i: nat, fails: bool)
    requires i < |s.tasks| && CanMove(s.tasks[i])
    ensures Counts(s, Move(s, i, fails), i)
  {
    if s.tasks[i].Writer? {
      WriterCounts(s, i, fails);
    }
    hide WriterMove;
  }

  lemma EveryStepCounts(s: State, i: nat, fails: bool)
    requires i < |s.tasks| && CanMove(s.tasks[i])
    ensures Measure(Step(s, i, fails)) < Measure(s)
  {
    hide Move, Notifications, Steps, Wakeup.Sum, Wakeup.Weigh, QueueCounts, WillNotify, CanMove;
    var s1 := if WillNotify(s.tasks[i]) then s.(tasks := Notify(s.tasks)) else s;
    MovedTask(s, i);
    var s' := Move(s1, i, fails);
    MoveCounts(s1, i, fails);
    SumNotify(s.tasks);
    var k := 9 * |s.tasks| + 5;
    var t, t' := s.tasks[i], s'.tasks[i];
    Wakeup.SumSet(Notifications, s1.tasks, i, t');
    Wakeup.SumSet(Steps, s1.tasks, i, t');
    if !WillNotify(t) {
      QueueSize(s, s', Notifications(t), Notifications(t'));
    }
    Wakeup.NotifyPays(k, Wakeup.Sum(Notifications, s.tasks) + |s.queue|,
                      Wakeup.Sum(Notifications, s'.tasks) + |s'.queue|,
                      Wakeup.Sum(Steps, s.tasks), Wakeup.Sum(Steps, s'.tasks));
  }

  /** No run is longer than the measure of its first state, so every run ends or hangs. */
  lemma {:induction false} RunsEnd(ss: seq<State>, n: nat)
    requires IsRun(ss, n)
    ensures |ss| - 1 + Measure(ss[|ss| - 1]) <= Measure(ss[0])
  {
    hide Step, Measure, CanMove;
    if |ss| > 1 {
      var k := |ss| - 2;
      RunsEnd(ss[..k + 1], n);
      assert Next(ss[k], ss[k + 1]);
      var i: nat, fails: bool :| i < |ss[k].tasks| && CanMove(ss[k].tasks[i]) && ss[k + 1] == Step(ss[k], i, fails);
      EveryStepCounts(ss[k], i, fails);
    }
  }
}
