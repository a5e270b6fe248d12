/**
 `OrderedAccess::acquire` with every access a step of its own: enabling the notification,
 the two loads, the counter's fetch_add, the poison store and notify_waiters. A fixed but
 arbitrary set of tasks runs in any interleaving; holders of a guard release it, with or
 without poisoning the session first, and other tasks may poison it at any time.
 */
module Wakeup {

  datatype Pc = Start | Enabled | Clear | Parked

  datatype Task =
    | Waiter(ticket: nat, pc: Pc, notified: bool) // inside acquire
    | Holder(ticket: nat)                         // acquire returned the guard
    | HolderStored(ticket: nat)                   // failing: poison stored, waiters to be notified
    | HolderTold(ticket: nat)                     // ... waiters notified, guard about to drop
    | Releasing                                   // counter advanced, waiters to be notified
    | Poisoner                                    // a task that will poison the session
    | PoisonerStored                              // ... poison stored, waiters to be notified
    | Done

  datatype State = State(serving: nat, poisoned: bool, tasks: seq<Task>)

  function Notified(t: Task): Task {
    if t.Waiter? && !t.pc.Start? then t.(notified := true) else t
  }

  /** notify_waiters reaches every enabled notification. */
  function Notify(ts: seq<Task>): (r: seq<Task>)
    ensures |r| == |ts|
    ensures forall i :: 0 <= i < |ts| ==> r[i] == Notified(ts[i])
  {
    if ts == [] then [] else Notify(ts[..|ts| - 1]) + [Notified(ts[|ts| - 1])]
  }

  /** A task can move unless it has ended or waits for a notification. */
  predicate CanMove(t: Task) {
    !t.Done? && !(t.Waiter? && t.pc.Parked? && !t.notified)
  }

  /** A task between changing the shared state and notifying. */
  predicate WillNotify(t: Task) {
    t.Releasing? || t.HolderStored? || t.PoisonerStored?
  }

  function Set(s: State, i: nat, t: Task): State
    requires i < |s.tasks|
  {
    s.(tasks := s.tasks[i := t])
  }

  /** One step of task `i`; `fails` says whether a holder's work fails. */
  function Step(s: State, i: nat, fails: bool): State
    requires i < |s.tasks| && CanMove(s.tasks[i])
  {
    match s.tasks[i]
    case Waiter(t, Start, _) => Set(s, i, Waiter(t, Enabled, false))
    case Waiter(t, Enabled, n) => Set(s, i, if s.poisoned then Done else Waiter(t, Clear, n))
    case Waiter(t, Clear, n) => Set(s, i, if s.serving == t then Holder(t) else Waiter(t, Parked, n))
    case Waiter(t, Parked, _) => Set(s, i, Waiter(t, Start, false))
    case Holder(t) =>
      if fails then Set(s, i, HolderStored(t)).(poisoned := true)
      else Set(s, i, Releasing).(serving := s.serving + 1)
    case HolderStored(t) => Set(s.(tasks := Notify(s.tasks)), i, HolderTold(t))
    case HolderTold(t) => Set(s, i, Releasing).(serving := s.serving + 1)
    case Releasing => Set(s.(tasks := Notify(s.tasks)), i, Done)
    case Poisoner => Set(s, i, PoisonerStored).(poisoned := true)
    case PoisonerStored => Set(s.(tasks := Notify(s.tasks)), i, Done)
  }

  predicate HasTicket(t: Task) {
    t.Waiter? || t.Holder? || t.HolderStored? || t.HolderTold?
  }

  /** Before anything moves: one waiter for each of the tickets 0 .. n - 1, and poisoners. */
  ghost predicate Init(s: State, n: nat) {
    && s.serving == 0 && !s.poisoned
    && (forall i :: 0 <= i < |s.tasks| ==>
          s.tasks[i].Poisoner? || (s.tasks[i].Waiter? && s.tasks[i].pc.Start? && s.tasks[i].ticket < n))
    && Sole(s.tasks)
    && forall t: nat :: t < n ==> Owned(s, t)
  }

  ghost predicate Owned(s: State, t: nat) {
    exists i :: 0 <= i < |s.tasks| && HasTicket(s.tasks[i]) && s.tasks[i].ticket == t
  }

  ghost predicate Sole(ts: seq<Task>) {
    forall i, j ::
      0 <= i < |ts| && 0 <= j < |ts| && HasTicket(ts[i]) && HasTicket(ts[j]) && ts[i].ticket == ts[j].ticket
      ==> i == j
  }

  ghost predicate Pending(s: State) {
    exists i :: 0 <= i < |s.tasks| && WillNotify(s.tasks[i])
  }

  /** No wakeup is lost: a parked waiter that could go on has been notified, or will be. */
  ghost predicate NoLostWakeup(s: State) {
    forall i :: 0 <= i < |s.tasks| && s.tasks[i].Waiter? && s.tasks[i].pc.Parked?
                && (s.tasks[i].ticket == s.serving || s.poisoned)
                ==> s.tasks[i].notified || Pending(s)
  }

  /** ... and neither is one between the two loads and the wait. */
  ghost predicate ClearOk(s: State) {
    forall i :: 0 <= i < |s.tasks| && s.tasks[i].Waiter? && s.tasks[i].pc.Clear? && s.poisoned
                ==> s.tasks[i].notified || Pending(s)
  }

  ghost predicate TicketsOk(s: State, n: nat) {
    && Sole(s.tasks)
    && (forall i :: 0 <= i < |s.tasks| && HasTicket(s.tasks[i]) ==> s.serving <= s.tasks[i].ticket < n)
    && (forall i :: 0 <= i < |s.tasks| && HasTicket(s.tasks[i]) && !s.tasks[i].Waiter? ==>
          s.tasks[i].ticket == s.serving)
    && (!s.poisoned ==> forall t: nat :: s.serving <= t < n ==> Owned(s, t))
  }

  ghost predicate Inv(s: State, n: nat) {
    TicketsOk(s, n) && NoLostWakeup(s) && ClearOk(s)
  }

  /** One waiter for each of the first `n` tickets. */
  function Waiting(n: nat): seq<Task> {
    seq(n, i requires 0 <= i < n => Waiter(i, Start, false))
  }

  /** Any number of waiters and of poisoners is such a start. */
  lemma AnyNumberStarts(n: nat, poisoners: nat)
    ensures Init(State(0, false, Waiting(n) + seq(poisoners, _ => Poisoner)), n)
  {
    var s := State(0, false, Waiting(n) + seq(poisoners, _ => Poisoner));
    forall t: nat | t < n ensures Owned(s, t) {
      assert HasTicket(s.tasks[t]) && s.tasks[t].ticket == t;
    }
  }

  lemma InitOk(s: State, n: nat)
    requires Init(s, n)
    ensures Inv(s, n)
  {}

  /** A task keeps its ticket until it has released it or the session is poisoned. */
  lemma TicketStep(s: State, i: nat, fails: bool)
    requires i < |s.tasks| && CanMove(s.tasks[i])
    ensures var s' := Step(s, i, fails); var t, t' := s.tasks[i], s'.tasks[i];
            && |s'.tasks| == |s.tasks| && (s.poisoned ==> s'.poisoned)
            && (HasTicket(t') ==> HasTicket(t) && t'.ticket == t.ticket)
            && (s'.serving == s.serving
                || (s'.serving == s.serving + 1 && HasTicket(t) && !t.Waiter? && !HasTicket(t')))
            && (HasTicket(t) && !HasTicket(t') ==> s'.serving == s.serving + 1 || s'.poisoned)
            && (HasTicket(t') && !t'.Waiter? ==> !t.Waiter? || t.ticket == s.serving)
            && forall j :: 0 <= j < |s.tasks| && j != i ==>
                 HasTicket(s'.tasks[j]) == HasTicket(s.tasks[j])
                 && (HasTicket(s.tasks[j]) ==> s'.tasks[j].ticket == s.tasks[j].ticket)
                 && s'.tasks[j].Waiter? == s.tasks[j].Waiter?
  {}

  lemma TicketsKept(s: State, i: nat, fails: bool, n: nat)
    requires TicketsOk(s, n) && i < |s.tasks| && CanMove(s.tasks[i])
    ensures TicketsOk(Step(s, i, fails), n)
  {
    var s' := Step(s, i, fails);
    hide Step;
    TicketStep(s, i, fails);
    if !s'.poisoned {
      forall t: nat | s'.serving <= t < n ensures Owned(s', t) {
        assert Owned(s, t);
        var j :| 0 <= j < |s.tasks| && HasTicket(s.tasks[j]) && s.tasks[j].ticket == t;
        assert HasTicket(s'.tasks[j]) && s'.tasks[j].ticket == t;
      }
    }
  }

  lemma WakeupsKept(s: State, i: nat, fails: bool, n: nat)
    requires Inv(s, n) && i < |s.tasks| && CanMove(s.tasks[i])
    ensures NoLostWakeup(Step(s, i, fails)) && ClearOk(Step(s, i, fails))
  {
    var s' := Step(s, i, fails);
    if !WillNotify(s.tasks[i]) {
      if Pending(s) {
        var j :| 0 <= j < |s.tasks| && WillNotify(s.tasks[j]);
        assert WillNotify(s'.tasks[j]);
      } else if s'.serving != s.serving || s'.poisoned != s.poisoned {
        assert WillNotify(s'.tasks[i]);
      }
    }
  }

  /** A run: which task moves, and whether its work fails. */
  ghost predicate IsRun(ss: seq<State>, n: nat) {
    && |ss| > 0 && Init(ss[0], n)
    && forall k :: 0 <= k < |ss| - 1 ==> Next(ss[k], ss[k + 1])
  }

  ghost predicate Next(s: State, s': State) {
    exists i: nat, fails: bool :: i < |s.tasks| && CanMove(s.tasks[i]) && s' == Step(s, i, fails)
  }

  lemma {:induction false} RunKept(ss: seq<State>, n: nat)
    requires IsRun(ss, n)
    ensures Inv(ss[|ss| - 1], n)
  {
    if |ss| == 1 {
      InitOk(ss[0], n);
    } else {
      var k := |ss| - 2;
      RunKept(ss[..k + 1], n);
      assert Next(ss[k], ss[k + 1]);
      var i: nat, fails: bool :| i < |ss[k].tasks| && CanMove(ss[k].tasks[i]) && ss[k + 1] == Step(ss[k], i, fails);
      TicketsKept(ss[k], i, fails, n);
      WakeupsKept(ss[k], i, fails, n);
    }
  }

  /** In every run, a parked waiter whose ticket is served or whose session is poisoned has
      been notified, or some task is between its store and its notify_waiters call. */
  lemma WakeupsAreNotLost(ss: seq<State>, n: nat)
    requires IsRun(ss, n)
    ensures NoLostWakeup(ss[|ss| - 1])
  {
    RunKept(ss, n);
  }

  /** Who cannot move has ended or waits without having been notified. */
  lemma StuckWaits(s: State)
    requires forall i :: 0 <= i < |s.tasks| ==> !CanMove(s.tasks[i])
    ensures forall i :: 0 <= i < |s.tasks| ==>
              s.tasks[i].Done? || (s.tasks[i].Waiter? && s.tasks[i].pc.Parked? && !s.tasks[i].notified)
  {}

  /** A run that cannot go on has ended: every `acquire` has returned. */
  lemma StuckIsDone(ss: seq<State>, n: nat)
    requires IsRun(ss, n)
    requires var s := ss[|ss| - 1]; forall i :: 0 <= i < |s.tasks| ==> !CanMove(s.tasks[i])
    ensures var s := ss[|ss| - 1]; forall i :: 0 <= i < |s.tasks| ==> s.tasks[i].Done?
  {
    RunKept(ss, n);
    var s := ss[|ss| - 1];
    assert !Pending(s);
    StuckWaits(s);
    assert !Owned(s, s.serving);
    hide CanMove, Sole;
  }

  // ----- every run ends ----------------------------------------------------

  /** How many notify_waiters calls a task may still make. */
  function Notifications(t: Task): nat {
    match t
    case Waiter(_, _, _) => 2
    case Holder(_) => 2
    case HolderStored(_) => 2
    case HolderTold(_) => 1
    case Releasing => 1
    case Poisoner => 1
    case PoisonerStored => 1
    case Done => 0
  }

  /** How many steps a task may still take before the next notification. */
  function Steps(t: Task): nat {
    match t
    case Waiter(_, pc, notified) =>
      6 + (if notified then 4 else 0)
      + (match pc case Start => 3 case Enabled => 2 case Clear => 1 case Parked => 0)
    case Holder(_) => 5
    case HolderStored(_) => 4
    case HolderTold(_) => 3
    case Releasing => 2
    case Poisoner => 2
    case PoisonerStored => 1
    case Done => 0
  }

  function Sum<T>(f: T -> nat, ts: seq<T>): nat {
    if ts == [] then 0 else Sum(f, ts[..|ts| - 1]) + f(ts[|ts| - 1])
  }

  lemma {:induction false} SumSet<T>(f: T -> nat, ts: seq<T>, i: nat, t: T)
    requires i < |ts|
    ensures Sum(f, ts[i := t]) == Sum(f, ts) - f(ts[i]) + f(t)
  {
    var n := |ts| - 1;
    if i == n {
      assert ts[i := t][..n] == ts[..n];
    } else {
      assert ts[i := t][..n] == ts[..n][i := t];
      SumSet(f, ts[..n], i, t);
    }
  }

  lemma NotifyOne(t: Task)
    ensures Notifications(Notified(t)) == Notifications(t) && Steps(Notified(t)) <= Steps(t) + 4
  {}

  lemma {:induction false} SumNotify(ts: seq<Task>)
    ensures Sum(Notifications, Notify(ts)) == Sum(Notifications, ts)
    ensures Sum(Steps, Notify(ts)) <= Sum(Steps, ts) + 4 * |ts|
  {
    hide Notifications, Steps;
    if ts != [] {
      var n := |ts| - 1;
      SumNotify(ts[..n]);
      assert Notify(ts)[..n] == Notify(ts[..n]);
      NotifyOne(ts[n]);
    }
  }

  function Weigh(k: nat, calls: nat, steps: nat): nat {
    k * calls + steps
  }

  /** A notification weighs more than all the steps it allows. */
  function Measure(s: State): nat {
    Weigh(4 * |s.tasks| + 1, Sum(Notifications, s.tasks), Sum(Steps, s.tasks))
  }

  lemma NotifyPays(k: nat, calls: nat, calls': nat, steps: nat, steps': nat)
    requires (calls' < calls && steps' < steps + k) || (calls' == calls && steps' < steps)
    ensures Weigh(k, calls', steps') < Weigh(k, calls, steps)
  {
    if calls' < calls {
      Times(k, calls' + 1, calls);
      assert k * (calls' + 1) == k * calls' + k;
    }
  }

  lemma {:induction false} Times(k: nat, a: nat, b: nat)
    requires a <= b
    ensures k * a <= k * b
    decreases b - a
  {
    if a < b {
      Times(k, a, b - 1);
      assert k * b == k * (b - 1) + k;
    }
  }

  lemma TaskSteps(s: State, i: nat, fails: bool)
    requires i < |s.tasks| && CanMove(s.tasks[i])
    ensures var t, t' := s.tasks[i], Step(s, i, fails).tasks[i];
            if WillNotify(t) then Notifications(t') < Notifications(t) && Steps(t') <= Steps(t)
            else Notifications(t') <= Notifications(t) && Steps(t') < Steps(t)
    ensures Step(s, i, fails).tasks
            == (if WillNotify(s.tasks[i]) then Notify(s.tasks) else s.tasks)[i := Step(s, i, fails).tasks[i]]
  {}

  lemma EveryStepCounts(s: State, i: nat, fails: bool)
    requires i < |s.tasks| && CanMove(s.tasks[i])
    ensures Measure(Step(s, i, fails)) < Measure(s)
  {
    var s' := Step(s, i, fails);
    hide Step, Notifications, Steps, Sum, Weigh;
    var k := 4 * |s.tasks| + 1;
    TaskSteps(s, i, fails);
    SumNotify(s.tasks);
    var base := if WillNotify(s.tasks[i]) then Notify(s.tasks) else s.tasks;
    SumSet(Notifications, base, i, s'.tasks[i]);
    SumSet(Steps, base, i, s'.tasks[i]);
    NotifyPays(k, Sum(Notifications, s.tasks), Sum(Notifications, s'.tasks), Sum(Steps, s.tasks), Sum(Steps, s'.tasks));
  }

  /** No run is longer than the measure of its first state: with StuckIsDone, every
      `acquire` returns in every run that is carried as far as it goes. */
  lemma {:induction false} RunsEnd(ss: seq<State>, n: nat)
    requires IsRun(ss, n)
    ensures |ss| - 1 + Measure(ss[|ss| - 1]) <= Measure(ss[0])
  {
    hide Step, Measure, CanMove;
    if |ss| > 1 {
      var k := |ss| - 2;
      RunsEnd(ss[..k + 1], n);
      assert Next(ss[k], ss[k + 1]);
      var i: nat, fails: bool :| i < |ss[k].tasks| && CanMove(ss[k].tasks[i]) && ss[k + 1] == Step(ss[k], i, fails);
      EveryStepCounts(ss[k], i, fails);
    }
  }
}
