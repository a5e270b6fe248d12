/**
 From which states the loop of `acquire_writer` can hang: exactly those in which an abandoned
 reply can come to be served behind the last look of a writer that is still waiting.
 */
module WriterHangs {
  import opened WriterWakeup

  /**
   Task `j` can be left waiting because of task `i`: a handle with an earlier ticket may be
   dropped, or a ticket that is queued already lies between theirs.
   */
  predicate Risky(s: State, i: nat, j: nat)
    requires i < |s.tasks| && j < |s.tasks|
  {
    HasTicket(s.tasks[i]) && HasTicket(s.tasks[j]) && RiskyTickets(s.queue, s.tasks[i], s.tasks[j].ticket)
  }

  predicate RiskyTickets(queue: set<nat>, t: Task, w: nat)
    requires HasTicket(t)
  {
    (t.Handle? && t.ticket < w) || exists q :: q in queue && t.ticket < q < w
  }

  /** The session is sound, nobody will poison it, and some request stands behind such a reply. */
  ghost predicate MayHang(s: State) {
    && !s.poisoned
    && (forall i :: 0 <= i < |s.tasks| ==> !s.tasks[i].Poisoner?)
    && exists i, j :: 0 <= i < |s.tasks| && 0 <= j < |s.tasks| && Risky(s, i, j)
  }

  // ----- without risk no run hangs -----------------------------------------

  ghost predicate NoRisk(s: State) {
    forall i, j :: 0 <= i < |s.tasks| && 0 <= j < |s.tasks| ==> !Risky(s, i, j)
  }

  /** A writer that will look at the queue with the served ticket in it, or poison the session. */
  predicate WillLook(t: Task, serving: nat) {
    t.Writer? && (t.pc.Top? || t.pc == Loaded(serving) || t.pc.Sent? || t.pc.Failing? || t.pc.FailTold?)
  }

  ghost predicate SomeWriter(s: State) {
    exists i :: 0 <= i < |s.tasks| && s.tasks[i].Writer?
  }

  ghost predicate Attended(s: State) {
    s.serving in s.queue && SomeWriter(s) ==> exists i :: 0 <= i < |s.tasks| && WillLook(s.tasks[i], s.serving)
  }

  predicate KeepsTicket(t: Task, t': Task) {
    HasTicket(t') ==> HasTicket(t) && t'.ticket == t.ticket && (t'.Handle? ==> t.Handle?)
  }

  /** Everybody but the one who moves stays, or is notified. */
  lemma OthersStay(s: State, i: nat, fails: bool)
    requires i < |s.tasks| && CanMove(s.tasks[i])
    ensures var s' := Step(s, i, fails);
            |s'.tasks| == |s.tasks|
            && forall j :: 0 <= j < |s.tasks| && j != i ==>
                 s'.tasks[j] == s.tasks[j] || s'.tasks[j] == Notified(s.tasks[j])
  {
    hide CanMove, WillNotify, Notified;
  }

  lemma MoverTickets(s: State, i: nat, fails: bool)
    requires i < |s.tasks| && CanMove(s.tasks[i])
    ensures var s' := Step(s, i, fails);
            && KeepsTicket(s.tasks[i], s'.tasks[i])
            && (s'.queue <= s.queue || (s.tasks[i].Handle? && s'.queue == s.queue + {s.tasks[i].ticket}))
  {
    MovedTask(s, i);
    hide Notify, WillNotify;
  }

  lemma NotifiedKeeps(t: Task)
    ensures KeepsTicket(t, t) && KeepsTicket(t, Notified(t)) && Notified(t).Writer? == t.Writer?
    ensures forall u: nat :: WillLook(t, u) ==> WillLook(Notified(t), u)
  {}

  /** Tickets stay where they are or are given up; only a handle's enters the queue. */
  lemma TicketsStay(s: State, i: nat, fails: bool)
    requires i < |s.tasks| && CanMove(s.tasks[i])
    ensures var s' := Step(s, i, fails);
            && |s'.tasks| == |s.tasks|
            && (forall j :: 0 <= j < |s.tasks| ==> KeepsTicket(s.tasks[j], s'.tasks[j]))
            && (s'.queue <= s.queue || (s.tasks[i].Handle? && s'.queue == s.queue + {s.tasks[i].ticket}))
  {
    hide Step, KeepsTicket, Notified, CanMove;
    OthersStay(s, i, fails);
    MoverTickets(s, i, fails);
    var s' := Step(s, i, fails);
    forall j | 0 <= j < |s.tasks| && j != i ensures KeepsTicket(s.tasks[j], s'.tasks[j]) {
      NotifiedKeeps(s.tasks[j]);
    }
  }

  lemma NoRiskKept(s: State, i: nat, fails: bool)
    requires i < |s.tasks| && CanMove(s.tasks[i]) && NoRisk(s)
    ensures NoRisk(Step(s, i, fails))
  {
    hide Step;
    TicketsStay(s, i, fails);
    var s' := Step(s, i, fails);
    forall a, b | 0 <= a < |s'.tasks| && 0 <= b < |s'.tasks| ensures !Risky(s', a, b) {
      assert KeepsTicket(s.tasks[a], s'.tasks[a]) && KeepsTicket(s.tasks[b], s'.tasks[b]);
      assert !Risky(s, a, b) && !Risky(s, i, b);
    }
  }

  /** One that will look goes on to, or has removed the ticket, or has served it. */
  lemma LookerMoves(s: State, i: nat, fails: bool)
    requires i < |s.tasks| && CanMove(s.tasks[i]) && WillLook(s.tasks[i], s.serving)
    ensures var s' := Step(s, i, fails);
            s'.poisoned || s'.serving !in s'.queue || WillLook(s'.tasks[i], s'.serving)
  {}

  /** Who serves the next ticket will look, or has had the one before, or poisons the session. */
  lemma ServerLooks(s: State, i: nat, fails: bool)
    requires i < |s.tasks| && CanMove(s.tasks[i]) && TaskOk(s.serving, s.poisoned, s.tasks[i])
    ensures var s' := Step(s, i, fails); var t, t' := s.tasks[i], s'.tasks[i];
            && (s'.serving != s.serving ==>
                  WillLook(t', s'.serving) || (HasTicket(t) && !HasTicket(t') && t.ticket == s.serving))
            && (s'.serving == s.serving || s'.serving == s.serving + 1)
            && (t'.Writer? && !t.Writer? ==> WillLook(t', s'.serving))
  {
    MovedTask(s, i);
    hide Notify, WillNotify;
  }

  ghost predicate LooksAs(t: Task, t': Task) {
    t'.Writer? == t.Writer? && forall u: nat :: WillLook(t, u) ==> WillLook(t', u)
  }

  /** The others look as they would have. */
  lemma OthersLook(s: State, i: nat, fails: bool)
    requires i < |s.tasks| && CanMove(s.tasks[i])
    ensures forall j :: 0 <= j < |s.tasks| && j != i ==> LooksAs(s.tasks[j], Step(s, i, fails).tasks[j])
  {
    hide Step, Notified, WillLook, CanMove;
    OthersStay(s, i, fails);
    forall j | 0 <= j < |s.tasks| && j != i ensures LooksAs(s.tasks[j], Step(s, i, fails).tasks[j]) {
      NotifiedKeeps(s.tasks[j]);
    }
  }

  lemma AttendedKept(s: State, i: nat, fails: bool, n: nat)
    requires TicketsOk(s, n) && i < |s.tasks| && CanMove(s.tasks[i]) && NoRisk(s) && Attended(s)
    ensures var s' := Step(s, i, fails); s'.poisoned || Attended(s')
  {
    var s' := Step(s, i, fails);
    assert TaskOk(s.serving, s.poisoned, s.tasks[i]);
    ServerLooks(s, i, fails);
    OthersLook(s, i, fails);
    TicketsStay(s, i, fails);
    if WillLook(s.tasks[i], s.serving) { LookerMoves(s, i, fails); }
    hide Step, CanMove, TaskOk, WillLook;
    if s'.serving in s'.queue && !s'.poisoned && SomeWriter(s') && !WillLook(s'.tasks[i], s'.serving) {
      var j :| 0 <= j < |s'.tasks| && s'.tasks[j].Writer?;
      assert Owns(s'.tasks[j], s'.tasks[j].ticket);
      assert !Risky(s, i, j);
    }
  }

  lemma PoisonStays(s: State, i: nat, fails: bool)
    requires i < |s.tasks| && CanMove(s.tasks[i])
    ensures var s' := Step(s, i, fails);
            && (s.poisoned ==> s'.poisoned)
            && (s.tasks[i].Poisoner? ==> s'.poisoned)
  {
    hide Notify;
  }

  /** What a run keeps of a start without risk, and of its poisoners. */
  ghost predicate SafeSince(s0: State, s: State) {
    && |s.tasks| == |s0.tasks| && (s0.poisoned ==> s.poisoned)
    && (forall i :: 0 <= i < |s.tasks| && s0.tasks[i].Poisoner? ==> s.tasks[i].Poisoner? || s.poisoned)
    && (NoRisk(s0) ==> s.poisoned || (NoRisk(s) && Attended(s)))
  }

  lemma SafeStep(s0: State, s: State, i: nat, fails: bool, n: nat)
    requires SafeSince(s0, s) && TicketsOk(s, n) && i < |s.tasks| && CanMove(s.tasks[i])
    ensures SafeSince(s0, Step(s, i, fails))
  {
    PoisonStays(s, i, fails);
    OthersStay(s, i, fails);
    if NoRisk(s0) && !s.poisoned {
      NoRiskKept(s, i, fails);
      AttendedKept(s, i, fails, n);
    }
    hide Step, NoRisk, Attended, CanMove, TicketsOk;
  }

  lemma {:induction false} SafeRun(ss: seq<State>, n: nat)
    requires IsRun(ss, n)
    ensures SafeSince(ss[0], ss[|ss| - 1])
  {
    hide Step, NoRisk, CanMove, Inv, TicketsOk, Conserved;
    if |ss| > 1 {
      var k := |ss| - 2;
      var before := ss[..k + 1];
      SafeRun(before, n);
      RunKept(before, n);
      assert Next(ss[k], ss[k + 1]);
      var i: nat, fails: bool :| i < |ss[k].tasks| && CanMove(ss[k].tasks[i]) && ss[k + 1] == Step(ss[k], i, fails);
      InvTickets(ss[k], n);
      SafeStep(ss[0], ss[k], i, fails, n);
    }
  }

  lemma InvTickets(s: State, n: nat)
    requires Inv(s, n)
    ensures TicketsOk(s, n)
  {}

  /** No risk at the start, no hanging. */
  lemma HangsOnlyAtRisk(ss: seq<State>, n: nat)
    requires IsRun(ss, n) && Hangs(ss[|ss| - 1])
    ensures MayHang(ss[0])
  {
    SafeRun(ss, n);
    HowARunHangs(ss, n);
    var s := ss[|ss| - 1];
    var i :| 0 <= i < |s.tasks| && !s.tasks[i].Done?;
    assert WaitsInVain(s, s.tasks[i]) && SomeWriter(s);
    assert !NoRisk(ss[0]);
    hide IsRun, Risky;
  }

  // ----- ways through the loop ---------------------------------------------

  ghost predicate IsPath(ss: seq<State>) {
    |ss| > 0 && forall k :: 0 <= k < |ss| - 1 ==> Next(ss[k], ss[k + 1])
  }

  ghost predicate Reaches(s: State, t: State) {
    exists ss :: IsPath(ss) && ss[0] == s && ss[|ss| - 1] == t
  }

  lemma ReachesItself(s: State)
    ensures Reaches(s, s)
  {
    assert IsPath([s]);
  }

  lemma ReachesNext(s: State, t: State)
    requires Next(s, t)
    ensures Reaches(s, t)
  {
    hide Next;
    var ss := [s, t];
    assert IsPath(ss);
  }

  lemma ReachesOn(s: State, t: State, u: State)
    requires Reaches(s, t) && Reaches(t, u)
    ensures Reaches(s, u)
  {
    hide Next;
    var ss :| IsPath(ss) && ss[0] == s && ss[|ss| - 1] == t;
    var ts :| IsPath(ts) && ts[0] == t && ts[|ts| - 1] == u;
    var us := ss[..|ss| - 1] + ts;
    forall k | 0 <= k < |us| - 1 ensures Next(us[k], us[k + 1]) {
      if k < |ss| - 1 {
        assert us[k] == ss[k] && us[k + 1] == ss[k + 1];
      } else {
        assert us[k] == ts[k - (|ss| - 1)] && us[k + 1] == ts[k + 1 - (|ss| - 1)];
      }
    }
    assert IsPath(us) && us[|us| - 1] == u;
    assert us[0] == s;
  }

  /** One task moves and notifies nobody. */
  lemma StepReaches(s: State, i: nat, fails: bool)
    requires i < |s.tasks| && CanMove(s.tasks[i])
    ensures Reaches(s, Step(s, i, fails))
  {
    hide Step, CanMove;
    assert Next(s, Step(s, i, fails));
    ReachesNext(s, Step(s, i, fails));
  }

  lemma {:induction false} PathKeeps(ss: seq<State>, n: nat)
    requires IsPath(ss) && TicketsOk(ss[0], n) && Conserved(ss[0], n)
    ensures TicketsOk(ss[|ss| - 1], n) && Conserved(ss[|ss| - 1], n)
  {
    hide Step, TicketsOk, Conserved, CanMove;
    if |ss| > 1 {
      var k := |ss| - 2;
      PathKeeps(ss[..k + 1], n);
      assert Next(ss[k], ss[k + 1]);
      var i: nat, fails: bool :| i < |ss[k].tasks| && CanMove(ss[k].tasks[i]) && ss[k + 1] == Step(ss[k], i, fails);
      TicketsKept(ss[k], i, fails, n);
    }
  }

  lemma ReachesKeeps(s: State, t: State, n: nat)
    requires Reaches(s, t) && TicketsOk(s, n) && Conserved(s, n)
    ensures TicketsOk(t, n) && Conserved(t, n)
  {
    hide Next, TicketsOk, Conserved;
    var ss :| IsPath(ss) && ss[0] == s && ss[|ss| - 1] == t;
    PathKeeps(ss, n);
  }

  /** The state with task `i` replaced. */
  function With(s: State, i: nat, t: Task): State
    requires i < |s.tasks|
  {
    s.(tasks := s.tasks[i := t])
  }

  /** A step of a writer that is not told anything and tells nothing. */
  predicate Goes(s: State, ticket: nat, pc: Pc, missed: bool, pc': Pc, missed': bool) {
    || (pc.Top? && pc' == Loaded(s.serving) && !missed')
    || (missed' == missed &&
        (|| (pc.Loaded? && pc.cur !in s.queue && pc'.Clear?)
         || (pc.Clear? && ticket != s.serving && pc'.Late?)
         || (pc.Clear? && ticket == s.serving && pc'.Turn?)
         || (pc.Late? && pc'.Enabled?)
         || (pc.Enabled? && !s.poisoned && pc'.Checked?)
         || (pc.Checked? && ticket != s.serving && pc'.Parked?)))
  }

  lemma WriterGoes(s: State, i: nat, ticket: nat, pc: Pc, missed: bool, pc': Pc, missed': bool)
    requires i < |s.tasks| && s.tasks[i] == Writer(ticket, pc, false, missed)
    requires Goes(s, ticket, pc, missed, pc', missed')
    ensures Reaches(s, With(s, i, Writer(ticket, pc', false, missed')))
  {
    assert Step(s, i, false) == With(s, i, Writer(ticket, pc', false, missed'));
    StepReaches(s, i, false);
  }

  /** Every writer at the same point of the loop. */
  function Writers(ts: seq<Task>, pc: Pc, missed: bool): (r: seq<Task>)
    ensures |r| == |ts|
    ensures forall i :: 0 <= i < |ts| ==>
              r[i] == if ts[i].Writer? then Writer(ts[i].ticket, pc, false, missed) else ts[i]
  {
    seq(|ts|, i requires 0 <= i < |ts| =>
      if ts[i].Writer? then Writer(ts[i].ticket, pc, false, missed) else ts[i])
  }

  function AllAt(s: State, pc: Pc, missed: bool): State {
    s.(tasks := Writers(s.tasks, pc, missed))
  }

  /** The writers among the first `m` tasks have gone one step. */
  function SomeAt(s: State, m: nat, pc: Pc, missed: bool, pc': Pc, missed': bool): State {
    s.(tasks := seq(|s.tasks|, i requires 0 <= i < |s.tasks| => WriterAt(s.tasks[i], i < m, pc, missed, pc', missed')))
  }

  function WriterAt(t: Task, gone: bool, pc: Pc, missed: bool, pc': Pc, missed': bool): Task {
    if !t.Writer? then t
    else if gone then Writer(t.ticket, pc', false, missed')
    else Writer(t.ticket, pc, false, missed)
  }

  predicate AllGo(s: State, pc: Pc, missed: bool, pc': Pc, missed': bool) {
    forall i :: 0 <= i < |s.tasks| && s.tasks[i].Writer? ==> Goes(s, s.tasks[i].ticket, pc, missed, pc', missed')
  }

  lemma {:induction false} Sweep(s: State, m: nat, pc: Pc, missed: bool, pc': Pc, missed': bool)
    requires m <= |s.tasks| && AllGo(s, pc, missed, pc', missed')
    ensures Reaches(AllAt(s, pc, missed), SomeAt(s, m, pc, missed, pc', missed'))
  {
    hide Reaches, AllGo, AllAt, SomeAt;
    if m == 0 {
      SweepStarts(s, pc, missed, pc', missed');
      ReachesItself(AllAt(s, pc, missed));
    } else {
      Sweep(s, m - 1, pc, missed, pc', missed');
      SweepStep(s, m - 1, pc, missed, pc', missed');
      ReachesOn(AllAt(s, pc, missed), SomeAt(s, m - 1, pc, missed, pc', missed'),
                SomeAt(s, m, pc, missed, pc', missed'));
    }
  }

  lemma SweepStarts(s: State, pc: Pc, missed: bool, pc': Pc, missed': bool)
    ensures SomeAt(s, 0, pc, missed, pc', missed') == AllAt(s, pc, missed)
  {
    assert SomeAt(s, 0, pc, missed, pc', missed').tasks == AllAt(s, pc, missed).tasks;
  }

  lemma SweepStep(s: State, m: nat, pc: Pc, missed: bool, pc': Pc, missed': bool)
    requires m < |s.tasks| && AllGo(s, pc, missed, pc', missed')
    ensures Reaches(SomeAt(s, m, pc, missed, pc', missed'), SomeAt(s, m + 1, pc, missed, pc', missed'))
  {
    hide Reaches, Goes;
    var t, u := SomeAt(s, m, pc, missed, pc', missed'), SomeAt(s, m + 1, pc, missed, pc', missed');
    if s.tasks[m].Writer? {
      var w := s.tasks[m].ticket;
      SameGoes(s, t, w, pc, missed, pc', missed');
      WriterGoes(t, m, w, pc, missed, pc', missed');
      assert u.tasks == t.tasks[m := Writer(w, pc', false, missed')];
    } else {
      assert u.tasks == t.tasks;
      ReachesItself(t);
    }
  }

  lemma SameGoes(s: State, t: State, ticket: nat, pc: Pc, missed: bool, pc': Pc, missed': bool)
    requires t == s.(tasks := t.tasks) && Goes(s, ticket, pc, missed, pc', missed')
    ensures Goes(t, ticket, pc, missed, pc', missed')
  {}

  /** All writers take the same step. */
  lemma AllStep(s: State, pc: Pc, missed: bool, pc': Pc, missed': bool)
    requires AllGo(s, pc, missed, pc', missed')
    ensures Reaches(AllAt(s, pc, missed), AllAt(s, pc', missed'))
  {
    hide Reaches, AllGo;
    Sweep(s, |s.tasks|, pc, missed, pc', missed');
    assert SomeAt(s, |s.tasks|, pc, missed, pc', missed').tasks == Writers(s.tasks, pc', missed');
  }

  predicate NoneServed(s: State) {
    forall i :: 0 <= i < |s.tasks| && s.tasks[i].Writer? ==> s.tasks[i].ticket != s.serving
  }

  /** Writers that have missed a notification and are not served go to wait. */
  lemma AllPark(s: State, missed: bool)
    requires !s.poisoned && NoneServed(s)
    ensures Reaches(AllAt(s, Clear, missed), AllAt(s, Parked, missed))
  {
    AllStep(s, Clear, missed, Late, missed);
    AllStep(s, Late, missed, Enabled, missed);
    AllStep(s, Enabled, missed, Checked, missed);
    AllStep(s, Checked, missed, Parked, missed);
    hide Reaches, AllAt, NoneServed;
    ReachesOn(AllAt(s, Clear, missed), AllAt(s, Late, missed), AllAt(s, Enabled, missed));
    ReachesOn(AllAt(s, Clear, missed), AllAt(s, Enabled, missed), AllAt(s, Checked, missed));
    ReachesOn(AllAt(s, Clear, missed), AllAt(s, Checked, missed), AllAt(s, Parked, missed));
  }

  // ----- at risk some run hangs --------------------------------------------

  /** Every request but the handle at `keep`, if that is one, is a writer that has not begun to look. */
  ghost predicate Settled(s: State, n: nat, keep: nat) {
    && TicketsOk(s, n) && Conserved(s, n) && !s.poisoned
    && forall i :: 0 <= i < |s.tasks| ==> IsSettled(s.tasks[i], i == keep)
  }

  predicate IsSettled(t: Task, kept: bool) {
    (t.Writer? && t == Writer(t.ticket, Top, false, false)) || t.Holder? || t.Done? || (kept && t.Handle?)
  }

  function Answered(t: Task): Task {
    if t.Handle? then Writer(t.ticket, Top, false, false) else t
  }

  /** The first `m` handles, but for `keep`, have become writers. */
  function AnsweredTo(ts: seq<Task>, m: nat, keep: nat): (r: seq<Task>)
    ensures |r| == |ts|
    ensures forall i :: 0 <= i < |ts| ==> r[i] == if i < m && i != keep then Answered(ts[i]) else ts[i]
  {
    seq(|ts|, i requires 0 <= i < |ts| => if i < m && i != keep then Answered(ts[i]) else ts[i])
  }

  lemma {:induction false} AnswersReach(s: State, m: nat, keep: nat)
    requires m <= |s.tasks|
    ensures Reaches(s, s.(tasks := AnsweredTo(s.tasks, m, keep)))
  {
    hide Reaches;
    if m == 0 {
      assert AnsweredTo(s.tasks, 0, keep) == s.tasks;
      ReachesItself(s);
    } else {
      AnswersReach(s, m - 1, keep);
      var t, u := s.(tasks := AnsweredTo(s.tasks, m - 1, keep)), s.(tasks := AnsweredTo(s.tasks, m, keep));
      if s.tasks[m - 1].Handle? && m - 1 != keep {
        assert u.tasks == Step(t, m - 1, false).tasks;
        StepReaches(t, m - 1, false);
        ReachesOn(s, t, u);
      } else {
        assert u.tasks == t.tasks;
      }
    }
  }

  /** The ticket at `w` has a writer or is the kept handle's. */
  lemma AllAnswered(s: State, n: nat, keep: nat) returns (t: State)
    requires Init(s, n) && !s.poisoned && forall i :: 0 <= i < |s.tasks| ==> !s.tasks[i].Poisoner?
    ensures Reaches(s, t) && Settled(t, n, keep)
    ensures t.serving == s.serving && t.queue == s.queue && |t.tasks| == |s.tasks|
    ensures forall i :: 0 <= i < |s.tasks| ==> t.tasks[i] == if i == keep then s.tasks[i] else Answered(s.tasks[i])
  {
    AnswersReach(s, |s.tasks|, keep);
    t := s.(tasks := AnsweredTo(s.tasks, |s.tasks|, keep));
    ReachesKeeps(s, t, n);
    hide Reaches, TicketsOk, Conserved;
    assert forall i :: 0 <= i < |s.tasks| ==> Starts(s.tasks[i]);
  }

  lemma {:induction false} QuietNotify(ts: seq<Task>)
    requires forall i :: 0 <= i < |ts| ==> Notified(ts[i]) == ts[i]
    ensures Notify(ts) == ts
  {}

  /** The owner of the served ticket gets the guard. */
  lemma GetsGuard(s: State, o: nat)
    requires o < |s.tasks| && s.tasks[o] == Writer(s.serving, Top, false, false)
    requires !s.poisoned && s.serving !in s.queue
    ensures Reaches(s, With(s, o, Holder(s.serving)))
  {
    hide Reaches;
    var c := s.serving;
    var s1, s2 := With(s, o, Writer(c, Loaded(c), false, false)), With(s, o, Writer(c, Clear, false, false));
    var s3, s4 := With(s, o, Writer(c, Turn, false, false)), With(s, o, Holder(c));
    WriterGoes(s, o, c, Top, false, Loaded(c), false);
    WriterGoes(s1, o, c, Loaded(c), false, Clear, false);
    WriterGoes(s2, o, c, Clear, false, Turn, false);
    assert s2.tasks == s1.tasks[o := s2.tasks[o]] && s3.tasks == s2.tasks[o := s3.tasks[o]];
    assert s4.tasks == Step(s3, o, false).tasks;
    StepReaches(s3, o, false);
    ReachesOn(s, s1, s2);
    ReachesOn(s, s2, s3);
    ReachesOn(s, s3, s4);
  }

  /** The holder of the guard releases it, while nobody is to be told. */
  lemma GivesGuard(s: State, o: nat)
    requires o < |s.tasks| && s.tasks[o].Holder?
    requires forall i :: 0 <= i < |s.tasks| ==> Notified(s.tasks[i]) == s.tasks[i]
    ensures Reaches(s, With(s, o, Done).(serving := s.serving + 1))
  {
    hide Reaches;
    var s1, s2 := With(s, o, Releasing).(serving := s.serving + 1), With(s, o, Done).(serving := s.serving + 1);
    assert s1 == Step(s, o, false);
    StepReaches(s, o, false);
    QuietNotify(s1.tasks);
    assert s2.tasks == Step(s1, o, false).tasks;
    StepReaches(s1, o, false);
    ReachesOn(s, s1, s2);
  }

  /** A writer that is not served removes the served ticket from the queue and is about to send its failure. */
  lemma DrainBegins(s: State, w: nat)
    requires w < |s.tasks| && s.tasks[w].Writer? && s.tasks[w] == Writer(s.tasks[w].ticket, Top, false, false)
    requires !s.poisoned && s.serving in s.queue
    ensures Reaches(s, With(s, w, Writer(s.tasks[w].ticket, Sending(s.serving), false, false))
                         .(queue := s.queue - {s.serving}))
  {
    hide Reaches;
    var c, u := s.serving, s.tasks[w].ticket;
    var s1 := With(s, w, Writer(u, Loaded(c), false, false));
    WriterGoes(s, w, u, Top, false, Loaded(c), false);
    var s2 := With(s, w, Writer(u, Removed(c), false, false)).(queue := s.queue - {c});
    assert s2.tasks == Step(s1, w, false).tasks;
    StepReaches(s1, w, false);
    var s3 := With(s2, w, Writer(u, Sending(c), false, false));
    assert s3.tasks == Step(s2, w, false).tasks;
    StepReaches(s2, w, false);
    ReachesOn(s, s1, s2);
    ReachesOn(s, s2, s3);
    assert s3.tasks == With(s, w, Writer(u, Sending(c), false, false)).tasks;
  }

  /** ... and sends it. */
  lemma DrainsOne(s: State, w: nat)
    requires w < |s.tasks| && s.tasks[w].Writer? && s.tasks[w] == Writer(s.tasks[w].ticket, Top, false, false)
    requires !s.poisoned && s.serving in s.queue
    requires forall i :: 0 <= i < |s.tasks| ==> Notified(s.tasks[i]) == s.tasks[i]
    ensures Reaches(s, s.(serving := s.serving + 1, queue := s.queue - {s.serving}))
  {
    hide Reaches;
    DrainBegins(s, w);
    var c, u := s.serving, s.tasks[w].ticket;
    var s3 := With(s, w, Writer(u, Sending(c), false, false)).(queue := s.queue - {c});
    var s4 := With(s3, w, Writer(u, Sent, false, false)).(serving := c + 1);
    assert s4.tasks == Step(s3, w, false).tasks;
    StepReaches(s3, w, false);
    var s5 := s.(serving := c + 1, queue := s.queue - {c});
    QuietNotify(s4.tasks);
    assert s5.tasks == Step(s4, w, false).tasks;
    StepReaches(s4, w, false);
    ReachesOn(s, s3, s4);
    ReachesOn(s, s4, s5);
  }

  /** The state of others is not changed by retiring tickets before theirs. */
  ghost predicate Retired(s: State, t: State, upTo: nat) {
    && |t.tasks| == |s.tasks| && t.serving == upTo
    && (forall q :: q in t.queue <==> q in s.queue && q >= upTo)
    && (forall i :: 0 <= i < |s.tasks| ==> t.tasks[i] == s.tasks[i] || t.tasks[i].Done?)
    && forall i :: 0 <= i < |s.tasks| && HasTicket(s.tasks[i]) && s.tasks[i].ticket >= upTo ==> t.tasks[i] == s.tasks[i]
  }

  lemma QuietNotified(s: State, o: nat)
    requires o < |s.tasks| && forall i :: 0 <= i < |s.tasks| ==> Notified(s.tasks[i]) == s.tasks[i]
    ensures var held := With(s, o, Holder(s.serving));
            forall i :: 0 <= i < |held.tasks| ==> Notified(held.tasks[i]) == held.tasks[i]
  {}

  lemma SettledIsQuiet(s: State, n: nat, keep: nat)
    requires Settled(s, n, keep)
    ensures forall i :: 0 <= i < |s.tasks| ==> Notified(s.tasks[i]) == s.tasks[i]
  {
    hide TicketsOk, Conserved;
    assert forall i :: 0 <= i < |s.tasks| ==> IsSettled(s.tasks[i], i == keep);
  }

  lemma RetireOne(s: State, n: nat, keep: nat, w: nat) returns (t: State)
    requires Settled(s, n, keep) && s.serving < n && w < |s.tasks|
    requires s.tasks[w].Writer? && s.tasks[w].ticket > s.serving
    requires keep < |s.tasks| && s.tasks[keep].Handle? ==> s.tasks[keep].ticket != s.serving
    ensures Reaches(s, t) && Settled(t, n, keep) && Retired(s, t, s.serving + 1)
  {
    hide Reaches;
    SettledIsQuiet(s, n, keep);
    hide Notified;
    if s.serving in s.queue {
      DrainsOne(s, w);
      t := s.(serving := s.serving + 1, queue := s.queue - {s.serving});
    } else {
      assert Owned(s, s.serving);
      var o :| 0 <= o < |s.tasks| && Owns(s.tasks[o], s.serving);
      assert IsSettled(s.tasks[o], o == keep);
      var held := With(s, o, Holder(s.serving));
      HasGuard(s, o);
      QuietNotified(s, o);
      GivesGuard(held, o);
      t := With(s, o, Done).(serving := s.serving + 1);
      assert With(held, o, Done).tasks == t.tasks;
      ReachesOn(s, held, t);
    }
    ReachesKeeps(s, t, n);
  }

  lemma {:induction false} RetireTo(s: State, n: nat, keep: nat, w: nat, upTo: nat) returns (t: State)
    requires Settled(s, n, keep) && s.serving <= upTo < n && w < |s.tasks|
    requires s.tasks[w].Writer? && s.tasks[w].ticket > upTo
    requires keep < |s.tasks| && s.tasks[keep].Handle? ==> s.tasks[keep].ticket >= upTo
    ensures Reaches(s, t) && Settled(t, n, keep) && Retired(s, t, upTo)
    decreases upTo - s.serving
  {
    if s.serving == upTo {
      t := s;
      ReachesItself(s);
    } else {
      var s1 := RetireOne(s, n, keep, w);
      t := RetireTo(s1, n, keep, w, upTo);
      hide Reaches, Settled;
      ReachesOn(s, s1, t);
    }
  }

  /** Nobody but its owner has the served ticket. */
  lemma OthersAreBehind(s: State, n: nat, o: nat)
    requires TicketsOk(s, n) && o < |s.tasks| && HasTicket(s.tasks[o]) && s.tasks[o].ticket == s.serving
    ensures s.serving !in s.queue
    ensures forall i :: 0 <= i < |s.tasks| && i != o && HasTicket(s.tasks[i]) ==> s.tasks[i].ticket > s.serving
  {
    assert Owns(s.tasks[o], s.serving);
    forall i | 0 <= i < |s.tasks| && i != o && HasTicket(s.tasks[i]) ensures s.tasks[i].ticket > s.serving {
      assert Owns(s.tasks[i], s.tasks[i].ticket);
    }
  }

  /** Writers behind the served ticket and nobody else, with the ticket in the queue: once they wait, that is it. */
  lemma ParkedHangs(s: State)
    requires exists i :: 0 <= i < |s.tasks| && s.tasks[i].Writer?
    requires forall i :: 0 <= i < |s.tasks| ==> s.tasks[i].Writer? || s.tasks[i].Done?
    ensures Hangs(AllAt(s, Parked, true))
  {
    var i :| 0 <= i < |s.tasks| && s.tasks[i].Writer?;
    var t := AllAt(s, Parked, true);
    assert t.tasks[i].Writer?;
  }

  /** All writers have found the served ticket not queued. */
  lemma AllLook(s: State)
    requires s.serving !in s.queue
    requires forall i :: 0 <= i < |s.tasks| ==> s.tasks[i].Writer? ==> IsSettled(s.tasks[i], false)
    ensures Reaches(s, AllAt(s, Clear, false))
  {
    var c := s.serving;
    assert AllAt(s, Top, false).tasks == s.tasks;
    AllStep(s, Top, false, Loaded(c), false);
    AllStep(s, Loaded(c), false, Clear, false);
    hide Reaches;
    ReachesOn(s, AllAt(s, Loaded(c), false), AllAt(s, Clear, false));
  }

  /** The writers have looked when the handle of the served ticket is dropped. */
  lemma DroppedMeanwhile(s: State, h: nat)
    requires h < |s.tasks| && s.tasks[h] == Handle(s.serving)
    requires !s.poisoned && s.serving !in s.queue
    requires forall i :: 0 <= i < |s.tasks| ==> s.tasks[i].Writer? ==> IsSettled(s.tasks[i], false)
    ensures Reaches(s, AllAt(With(s, h, Done).(queue := s.queue + {s.serving}), Clear, true))
  {
    hide Reaches;
    AllLook(s);
    var looked := AllAt(s, Clear, false);
    var dropped := Step(looked, h, true);
    StepReaches(looked, h, true);
    ReachesOn(s, looked, dropped);
    assert AllAt(With(s, h, Done), Clear, true).tasks == Step(dropped, h, false).tasks;
    StepReaches(dropped, h, false);
    ReachesOn(s, dropped, Step(dropped, h, false));
  }

  /** All writers look, the handle before them is dropped, all writers wait. */
  lemma HangsAtHandle(s: State, n: nat, h: nat, w: nat) returns (t: State)
    requires Settled(s, n, h) && h < |s.tasks| && s.tasks[h] == Handle(s.serving)
    requires w < |s.tasks| && w != h && s.tasks[w].Writer?
    ensures Reaches(s, t) && Hangs(t)
  {
    hide Reaches, Hangs, Step;
    OthersAreBehind(s, n, h);
    assert forall i :: 0 <= i < |s.tasks| ==> IsSettled(s.tasks[i], i == h);
    DroppedMeanwhile(s, h);
    var left := With(s, h, Done).(queue := s.queue + {s.serving});
    forall i | 0 <= i < |left.tasks| ensures left.tasks[i].Writer? || left.tasks[i].Done? {
      assert IsSettled(s.tasks[i], i == h) && TaskOk(s.serving, s.poisoned, s.tasks[i]);
    }
    hide TicketsOk, Conserved, TaskOk;
    AllPark(left, true);
    t := AllAt(left, Parked, true);
    ReachesOn(s, AllAt(left, Clear, true), t);
    assert left.tasks[w].Writer?;
    ParkedHangs(left);
  }

  lemma HasGuard(s: State, o: nat)
    requires o < |s.tasks| && IsSettled(s.tasks[o], false) && HasTicket(s.tasks[o]) && s.tasks[o].ticket == s.serving
    requires !s.poisoned && s.serving !in s.queue
    ensures Reaches(s, With(s, o, Holder(s.serving)))
  {
    hide Reaches;
    if s.tasks[o].Writer? {
      GetsGuard(s, o);
    } else {
      assert With(s, o, Holder(s.serving)).tasks == s.tasks;
      ReachesItself(s);
    }
  }

  /** The writers have loaded the counter when the ticket that is served, and not queued, is retired. */
  lemma RetiredMeanwhile(s: State, o: nat)
    requires o < |s.tasks| && IsSettled(s.tasks[o], false) && HasTicket(s.tasks[o]) && s.tasks[o].ticket == s.serving
    requires !s.poisoned && s.serving !in s.queue
    requires forall i :: 0 <= i < |s.tasks| ==> s.tasks[i].Writer? ==> IsSettled(s.tasks[i], false)
    requires forall i :: 0 <= i < |s.tasks| && i != o && s.tasks[i].Writer? ==> s.tasks[i].ticket != s.serving
    ensures Reaches(s, AllAt(With(s, o, Done).(serving := s.serving + 1), Loaded(s.serving), true))
  {
    hide Reaches;
    var c := s.serving;
    var held := With(s, o, Holder(c));
    HasGuard(s, o);
    assert AllAt(held, Top, false).tasks == held.tasks;
    AllStep(held, Top, false, Loaded(c), false);
    var looked := AllAt(held, Loaded(c), false);
    ReachesOn(s, held, looked);
    var released := Step(looked, o, false);
    StepReaches(looked, o, false);
    ReachesOn(s, looked, released);
    assert AllAt(With(s, o, Done), Loaded(c), true).tasks == Step(released, o, false).tasks;
    StepReaches(released, o, false);
    ReachesOn(s, released, Step(released, o, false));
  }

  /** All writers load the counter, the served ticket is retired before a queued one, all writers wait. */
  lemma HangsAtQueued(s: State, n: nat, o: nat, w: nat) returns (t: State)
    requires Settled(s, n, |s.tasks|) && o < |s.tasks| && HasTicket(s.tasks[o]) && s.tasks[o].ticket == s.serving
    requires s.serving + 1 in s.queue && w < |s.tasks| && w != o && s.tasks[w].Writer?
    ensures Reaches(s, t) && Hangs(t)
  {
    hide Reaches, Hangs, Step;
    OthersAreBehind(s, n, o);
    var c := s.serving;
    assert forall i :: 0 <= i < |s.tasks| ==> IsSettled(s.tasks[i], false);
    RetiredMeanwhile(s, o);
    var left := With(s, o, Done).(serving := c + 1);
    forall i | 0 <= i < |left.tasks| ensures left.tasks[i].Writer? || left.tasks[i].Done? {
      assert IsSettled(s.tasks[i], false) && TaskOk(s.serving, s.poisoned, s.tasks[i]);
    }
    forall i | 0 <= i < |left.tasks| && left.tasks[i].Writer? ensures left.tasks[i].ticket != left.serving {
      assert Owns(s.tasks[i], s.tasks[i].ticket);
    }
    hide TicketsOk, Conserved;
    AllStep(left, Loaded(c), true, Clear, true);
    ReachesOn(s, AllAt(left, Loaded(c), true), AllAt(left, Clear, true));
    AllPark(left, true);
    t := AllAt(left, Parked, true);
    ReachesOn(s, AllAt(left, Clear, true), t);
    assert left.tasks[w].Writer?;
    ParkedHangs(left);
  }

  /** Between a ticket that is not queued and one that is, somewhere the queue begins. */
  lemma {:induction false} QueueBegins(queue: set<nat>, a: nat, q: nat) returns (b: nat)
    requires a !in queue && q in queue && a < q
    ensures a <= b < q && b !in queue && b + 1 in queue
  {
    if q - 1 in queue { b := QueueBegins(queue, a, q - 1); } else { b := q - 1; }
  }

  /** From a handle with a request behind it. */
  lemma HandleHangs(s: State, n: nat, h: nat, w: nat) returns (t: State)
    requires Init(s, n) && !s.poisoned && forall i :: 0 <= i < |s.tasks| ==> !s.tasks[i].Poisoner?
    requires h < |s.tasks| && w < |s.tasks| && s.tasks[h].Handle?
    requires HasTicket(s.tasks[w]) && s.tasks[h].ticket < s.tasks[w].ticket
    ensures Reaches(s, t) && Hangs(t)
  {
    var k := s.tasks[h].ticket;
    assert Starts(s.tasks[w]) && TaskOk(s.serving, s.poisoned, s.tasks[w]);
    assert Owns(s.tasks[h], k);
    hide Reaches, Settled, Hangs;
    var s1 := AllAnswered(s, n, h);
    var s2 := RetireTo(s1, n, h, w, k);
    t := HangsAtHandle(s2, n, h, w);
    ReachesOn(s, s1, s2);
    ReachesOn(s, s2, t);
  }

  /** A request that is not retired is answered and has its turn to come. */
  lemma StaysAnswered(t: Task, s1: State, s2: State, i: nat, b: nat)
    requires HasTicket(t) && i < |s1.tasks| && s1.tasks[i] == Answered(t) && Retired(s1, s2, b) && b <= t.ticket
    ensures i < |s2.tasks| && s2.tasks[i] == Answered(t)
  {}

  lemma AnsweredStays(t: Task)
    requires HasTicket(t)
    ensures HasTicket(Answered(t)) && Answered(t).ticket == t.ticket
    ensures t.Handle? || t.Writer? ==> Answered(t).Writer?
  {}

  /** From a queued ticket right behind a request, and one with a request behind it. */
  lemma BeginningHangs(s: State, n: nat, o: nat, w: nat) returns (t: State)
    requires Init(s, n) && !s.poisoned && forall i :: 0 <= i < |s.tasks| ==> !s.tasks[i].Poisoner?
    requires o < |s.tasks| && w < |s.tasks| && HasTicket(s.tasks[o]) && HasTicket(s.tasks[w])
    requires s.tasks[o].ticket + 1 in s.queue && s.tasks[o].ticket < s.tasks[w].ticket
    ensures Reaches(s, t) && Hangs(t)
  {
    var b := s.tasks[o].ticket;
    assert Owns(s.tasks[o], b) && Starts(s.tasks[o]);
    assert Starts(s.tasks[w]) && TaskOk(s.serving, s.poisoned, s.tasks[w]);
    hide Reaches, Settled, Hangs, TicketsOk, Conserved, Owns;
    var s1 := AllAnswered(s, n, |s.tasks|);
    assert s.tasks[w].Writer? || s.tasks[w].Handle?;
    hide Init, TaskOk, Starts, Answered;
    AnsweredStays(s.tasks[w]);
    var s2 := RetireTo(s1, n, |s.tasks|, w, b);
    AnsweredStays(s.tasks[o]);
    StaysAnswered(s.tasks[o], s1, s2, o, b);
    StaysAnswered(s.tasks[w], s1, s2, w, b);
    t := HangsAtQueued(s2, n, o, w);
    ReachesOn(s, s1, s2);
    ReachesOn(s, s2, t);
  }

  /** From a queued ticket with requests on both sides. */
  lemma QueuedHangs(s: State, n: nat, i: nat, q: nat, w: nat) returns (t: State)
    requires Init(s, n) && !s.poisoned && forall i :: 0 <= i < |s.tasks| ==> !s.tasks[i].Poisoner?
    requires i < |s.tasks| && w < |s.tasks| && HasTicket(s.tasks[i]) && HasTicket(s.tasks[w])
    requires q in s.queue && s.tasks[i].ticket < q < s.tasks[w].ticket
    ensures Reaches(s, t) && Hangs(t)
  {
    hide Reaches, Hangs;
    assert Owns(s.tasks[i], s.tasks[i].ticket);
    var b := QueueBegins(s.queue, s.tasks[i].ticket, q);
    assert Owned(s, b);
    var o :| 0 <= o < |s.tasks| && Owns(s.tasks[o], b);
    assert Starts(s.tasks[o]);
    hide Init;
    t := BeginningHangs(s, n, o, w);
  }

  lemma AtRiskHangs(s: State, n: nat) returns (t: State)
    requires Init(s, n) && MayHang(s)
    ensures Reaches(s, t) && Hangs(t)
  {
    var i, j :| 0 <= i < |s.tasks| && 0 <= j < |s.tasks| && Risky(s, i, j);
    hide Reaches, Hangs, Init;
    if s.tasks[i].Handle? && s.tasks[i].ticket < s.tasks[j].ticket {
      t := HandleHangs(s, n, i, j);
    } else {
      var q :| q in s.queue && s.tasks[i].ticket < q < s.tasks[j].ticket;
      t := QueuedHangs(s, n, i, q, j);
    }
  }

  // ----- the exact condition -----------------------------------------------

  /**
   Some run from here hangs if and only if the session is sound and will not be poisoned from
   elsewhere, and a request waits behind a handle, which may be dropped, or behind a reply that
   was dropped already and that stands behind a request.
   */
  lemma HangsExactly(s: State, n: nat)
    requires Init(s, n)
    ensures (exists ss :: IsRun(ss, n) && ss[0] == s && Hangs(ss[|ss| - 1])) <==> MayHang(s)
  {
    if MayHang(s) {
      var t := AtRiskHangs(s, n);
      var ss :| IsPath(ss) && ss[0] == s && ss[|ss| - 1] == t;
      assert IsRun(ss, n);
    }
    forall ss | IsRun(ss, n) && ss[0] == s && Hangs(ss[|ss| - 1]) ensures MayHang(s) {
      HangsOnlyAtRisk(ss, n);
    }
    hide MayHang, Hangs, Init, Next;
  }

  /** One request behind a handle is enough. */
  lemma AHangingRun() returns (ss: seq<State>)
    ensures IsRun(ss, 2) && Hangs(ss[|ss| - 1])
    ensures ss[0] == State(0, false, {}, [Writer(1, Top, false, false), Handle(0)])
  {
    var s := State(0, false, {}, [Writer(1, Top, false, false), Handle(0)]);
    assert Owns(s.tasks[0], 1) && Owns(s.tasks[1], 0);
    assert Risky(s, 1, 0);
    HangsExactly(s, 2);
    hide IsRun, Hangs, MayHang, Init;
    ss :| IsRun(ss, 2) && ss[0] == s && Hangs(ss[|ss| - 1]);
  }

  /** So is one behind a reply that was dropped while the request before that was not yet sent. */
  lemma AnotherHangingRun() returns (ss: seq<State>)
    ensures IsRun(ss, 3) && Hangs(ss[|ss| - 1])
    ensures ss[0] == State(0, false, {1}, [Writer(0, Top, false, false), Writer(2, Top, false, false)])
  {
    var s := State(0, false, {1}, [Writer(0, Top, false, false), Writer(2, Top, false, false)]);
    assert Owns(s.tasks[0], 0) && Owns(s.tasks[1], 2) && 1 in s.queue;
    assert Risky(s, 0, 1);
    HangsExactly(s, 3);
    hide IsRun, Hangs, MayHang, Init;
    ss :| IsRun(ss, 3) && ss[0] == s && Hangs(ss[|ss| - 1]);
  }
}
