// Semaphores, timing records and control points survive every step.
module SusePhases {
  import opened Lists
  import opened SuseTiming
  import opened SuseState
  import opened SuseInvariant
  import opened SuseSystem
  import opened SuseSafety
  import opened SusePlacement

  // ---- semaphores ----

  ghost predicate SemOk(sem: Sem) {
    sem.value <= sem.max && sem.max >= 1 && |sem.blocked| == Waiting(sem.value)
  }

  lemma SemUpdate(st: State, b: State, name: string)
    requires SemsOk(st) && name in st.sems && b.sems.Keys == st.sems.Keys && SemOk(b.sems[name])
    requires forall n :: n in st.sems && n != name ==> b.sems[n] == st.sems[n]
    ensures SemsOk(b)
  {
  }

  lemma WaitSems(s: Sys, a: Action)
    requires SemsOk(s.st) && Safe(s, a) && a.step.Waits?
    ensures SemsOk(Prepared(s, a))
  {
    assert SemOk(s.st.sems[a.step.name]);
    SemUpdate(s.st, Prepared(s, a), a.step.name);
  }

  lemma SignalSems(s: Sys, a: Action)
    requires SemsOk(s.st) && Safe(s, a) && a.step.Signals?
    ensures SemsOk(Prepared(s, a))
  {
    assert SemOk(s.st.sems[a.step.name]);
    SemUpdate(s.st, Prepared(s, a), a.step.name);
  }

  lemma OtherSems(s: Sys, a: Action)
    requires Safe(s, a) && !a.step.Waits? && !a.step.Signals?
    ensures Prepared(s, a).sems == s.st.sems
  {
    hide MoveSafe, Switch, ChosenPos;
  }

  lemma PreparedSems(s: Sys, a: Action)
    requires SemsOk(s.st) && Safe(s, a)
    ensures SemsOk(Prepared(s, a))
  {
    hide Safe, Prepared;
    match a.step
    case Waits(_, _, _) => WaitSems(s, a);
    case Signals(_, _, _) => SignalSems(s, a);
    case _ => OtherSems(s, a);
  }

  lemma SemsKept(s: Sys, a: Action)
    requires SemsOk(s.st) && Safe(s, a)
    ensures SemsOk(Apply(s, a).st)
  {
    NormalForm(s, a);
    PreparedSems(s, a);
    match Moved(s, a)
    case None =>
    case Some(Target(t, to)) => MoveFrame(Prepared(s, a), t, to, a.now);
  }

  // ---- timing ----

  lemma PickedKept(s: Sys, a: Action, t: Id)
    requires Guard(s, a) && Safe(s, a) && !a.step.Schedules? && s.pc.Keys == s.st.programs.Keys
    ensures Picked(Apply(s, a), t) <==>
      Picked(s, t) && !(a.step.Resumes? && s.pc[a.step.p].next == t && t.socket == a.step.p)
  {
    hide MoveSafe, Move, Wait, Signal, Join, WakeOne, Admit;
  }

  /** Bookkeeping other than the scan leaves every timing record and log alone. */
  lemma PreparedTimes(s: Sys, a: Action, t: Id)
    requires Safe(s, a) && !a.step.Schedules? && t in s.st.tcbs && t in s.st.log
    requires a.step.Creating? ==> t != Id(a.step.p, a.step.tid)
    ensures var st := Prepared(s, a);
      t in st.tcbs && t in st.log && st.tcbs[t].time == s.st.tcbs[t].time && st.tcbs[t].state == s.st.tcbs[t].state
      && st.log[t] == s.st.log[t] && st.alpha == s.st.alpha
  {
    hide MoveSafe, Choose, ChosenPos, Is;
    match a.step
    case Schedules(_) =>
    case Creating(_, _) =>
    case Joins(_, _) =>
    case _ => assert Prepared(s, a).tcbs == s.st.tcbs && Prepared(s, a).log == s.st.log;
  }

  lemma UntouchedTimed(s: Sys, r: Sys, t: Id)
    requires ThreadTimed(s, t) && t in r.st.tcbs && t in r.st.log && r.st.alpha == s.st.alpha && s.clock <= r.clock
    requires r.st.tcbs[t].time == s.st.tcbs[t].time && r.st.tcbs[t].state == s.st.tcbs[t].state
      && r.st.log[t] == s.st.log[t]
    requires Picked(r, t) <==> Picked(s, t)
    ensures ThreadTimed(r, t)
  {
  }

  /** A thread that goes to EXEC was picked, or has never run; once moved it is no longer picked. */
  lemma MoverPicked(s: Sys, a: Action)
    requires Guard(s, a) && Safe(s, a) && Moved(s, a).Some? && s.pc.Keys == s.st.programs.Keys
    requires a.step.LoadingMain? ==> PhaseOk(s.st, Loading, a.step.p)
    requires a.step.Resumes? ==> s.pc[a.step.p].next.socket == a.step.p
    ensures var t, to := Moved(s, a).value.t, Moved(s, a).value.to;
      && (to == EXEC ==> Picked(s, t) || (t in s.st.log && Bursts(s.st.log[t]) == []))
      && (Is(s.st, t, READY) || !Picked(s, t) ==> !Picked(Apply(s, a), t))
  {
    hide Bursts, Move;
    PickedKept(s, a, Moved(s, a).value.t);
  }

  /** The thread that moves: its segment is closed, a new one is opened, and the log grows by one event. */
  lemma MoverTimed(s: Sys, a: Action)
    requires Timed(s) && Guard(s, a) && Safe(s, a) && Moved(s, a).Some? && s.st.tcbs.Keys == s.st.log.Keys
    requires s.pc.Keys == s.st.programs.Keys
    requires a.step.LoadingMain? ==> PhaseOk(s.st, Loading, a.step.p)
    requires a.step.Resumes? ==> s.pc[a.step.p].next.socket == a.step.p
    ensures ThreadTimed(Apply(s, a), Moved(s, a).value.t)
  {
    hide Guard, Safe, Apply, Moved, Prepared, Move, Switch, Picked, TimedRecord, MoveSafe, PhaseOk;
    var t, to := Moved(s, a).value.t, Moved(s, a).value.to;
    MovesAway(s, a);
    MoverPicked(s, a);
    assert ThreadTimed(s, t);
    Clocks(s, a);
    NotScheduling(s, a);
    PreparedTimes(s, a, t);
    MoveFrame(Prepared(s, a), t, to, a.now);
    LegalMove(s.st, t, to);
    PickedIsReady(s.st.alpha, s.st.tcbs[t], s.st.log[t], Picked(s, t), s.clock);
    MovedRecord(s.st.alpha, s.st.tcbs[t], Prepared(s, a).tcbs[t], s.st.log[t], Picked(s, t), to, s.clock, a.now);
  }

  lemma LegalMove(st: State, t: Id, to: ThreadState)
    requires MoveSafe(st, t, to)
    ensures Known(st, t) && LegalChange(st.tcbs[t].state, to) && st.tcbs[t].state != to
  {
  }

  lemma PickedIsReady(alpha: real, tcb: Tcb, log: Log, picked: bool, clock: real)
    requires TimedRecord(alpha, tcb, log, picked, clock)
    ensures picked ==> tcb.state == READY
  {
  }

  lemma Clocks(s: Sys, a: Action)
    requires Guard(s, a) && Safe(s, a)
    ensures s.clock <= a.now == Apply(s, a).clock
  {
  }

  lemma NotScheduling(s: Sys, a: Action)
    requires Safe(s, a) && Moved(s, a).Some?
    ensures !a.step.Schedules? && !a.step.Creating?
  {
  }

  lemma MovedRecord(alpha: real, before: Tcb, tcb: Tcb, log: Log, picked: bool, to: ThreadState, clock: real, now: real)
    requires TimedRecord(alpha, before, log, picked, clock) && clock <= now
    requires tcb.time == before.time && tcb.state == before.state
    requires LegalChange(tcb.state, to) && tcb.state != to
    requires to == EXEC ==> picked || Bursts(log) == []
    ensures TimedRecord(alpha, tcb.(state := to, time := Switch(tcb.time, tcb.state, to, now)), log + [Event(to, now)],
      false, now)
  {
    hide Bursts, Switch;
    SwitchAccounts(alpha, tcb.time, log, tcb.state == EXEC || picked, to, now);
  }

  /** Only the thread that resumes stops being picked. */
  lemma StayerPicked(s: Sys, a: Action, t: Id)
    requires Guard(s, a) && Safe(s, a) && !a.step.Schedules? && s.pc.Keys == s.st.programs.Keys
    requires Moved(s, a).Some? ==> t != Moved(s, a).value.t
    ensures Picked(Apply(s, a), t) <==> Picked(s, t)
  {
    PickedKept(s, a, t);
    hide Guard, Safe, Apply, Picked;
  }

  lemma StayerTimed(s: Sys, a: Action, t: Id)
    requires ThreadTimed(s, t) && Guard(s, a) && Safe(s, a) && !a.step.Schedules? && s.pc.Keys == s.st.programs.Keys
    requires Moved(s, a).Some? ==> t != Moved(s, a).value.t
    requires a.step.Creating? ==> t != Id(a.step.p, a.step.tid)
    ensures ThreadTimed(Apply(s, a), t)
  {
    hide Guard, Safe, Apply, Moved, Prepared, Picked, Move, Switch, Accounts, MoveSafe;
    NormalForm(s, a);
    PreparedTimes(s, a, t);
    StayerPicked(s, a, t);
    Clocks(s, a);
    if Moved(s, a).Some? {
      MovesAway(s, a);
      MoveFrame(Prepared(s, a), Moved(s, a).value.t, Moved(s, a).value.to, a.now);
    }
    UntouchedTimed(s, Apply(s, a), t);
  }

  lemma SameThreads(s: Sys, a: Action)
    requires Safe(s, a) && !a.step.Creating?
    ensures Apply(s, a).st.tcbs.Keys == s.st.tcbs.Keys
  {
    NormalForm(s, a);
    if Moved(s, a).Some? {
      PreparedKeeps(s, a);
      MoveFrame(Prepared(s, a), Moved(s, a).value.t, Moved(s, a).value.to, a.now);
    } else if !a.step.Connecting? {
      PreparedKeeps(s, a);
    }
  }

  lemma StepTimed(s: Sys, a: Action)
    requires Timed(s) && Guard(s, a) && Safe(s, a) && s.st.tcbs.Keys == s.st.log.Keys && !a.step.Schedules?
      && !a.step.Creating?
    requires s.pc.Keys == s.st.programs.Keys
    requires a.step.LoadingMain? ==> PhaseOk(s.st, Loading, a.step.p)
    requires a.step.Resumes? ==> s.pc[a.step.p].next.socket == a.step.p
    ensures Timed(Apply(s, a))
  {
    var r := Apply(s, a);
    SameThreads(s, a);
    forall t | t in r.st.tcbs ensures ThreadTimed(r, t) {
      if Moved(s, a).Some? && t == Moved(s, a).value.t {
        MoverTimed(s, a);
      } else {
        StayerTimed(s, a, t);
      }
    }
  }

  lemma CreateLeaves(s: Sys, a: Action, t: Id)
    requires Guard(s, a) && Safe(s, a) && a.step.Creating? && t in s.st.tcbs && t in s.st.log
    ensures var r := Apply(s, a);
      && t in r.st.tcbs && t in r.st.log && r.st.tcbs[t] == s.st.tcbs[t] && r.st.log[t] == s.st.log[t]
      && r.st.alpha == s.st.alpha && s.clock <= r.clock && (Picked(r, t) <==> Picked(s, t))
  {}

  lemma CreateAdds(s: Sys, a: Action)
    requires Guard(s, a) && Safe(s, a) && a.step.Creating? && 0.0 <= s.clock
    ensures var r := Apply(s, a); var n := Id(a.step.p, a.step.tid);
      && ThreadTimed(r, n) && r.st.tcbs.Keys == s.st.tcbs.Keys + {n}
  {
    NewAccounts(s.st.alpha, a.now);
  }

  lemma CreateTimed(s: Sys, a: Action)
    requires Timed(s) && Guard(s, a) && Safe(s, a) && a.step.Creating? && 0.0 <= s.clock
    ensures Timed(Apply(s, a))
  {
    hide Guard, Safe, Apply, Picked, TimedRecord;
    var r := Apply(s, a);
    CreateAdds(s, a);
    forall t | t in r.st.tcbs ensures ThreadTimed(r, t) {
      if t != Id(a.step.p, a.step.tid) {
        assert t in r.st.tcbs.Keys;
        assert ThreadTimed(s, t);
        CreateLeaves(s, a, t);
        UntouchedTimed(s, r, t);
      }
    }
  }

  lemma KeptTimed(s: Sys, a: Action, t: Id)
    requires ThreadTimed(s, t) && Guard(s, a) && Safe(s, a) && a.step.Schedules?
      && ChosenPos(s.st, a.step.p, a.now) == -1
    requires t == Exec(s.st, a.step.p) && Is(s.st, t, EXEC) && t.socket == a.step.p
    ensures ThreadTimed(Apply(s, a), t)
  {
    KeepAccounts(s.st.alpha, s.st.tcbs[t].time, s.st.log[t], a.now);
  }

  lemma PickTimed(s: Sys, a: Action, t: Id)
    requires ThreadTimed(s, t) && Guard(s, a) && Safe(s, a) && a.step.Schedules?
      && ChosenPos(s.st, a.step.p, a.now) != -1
    requires t == s.st.programs[a.step.p].ready[ChosenPos(s.st, a.step.p, a.now)] && Is(s.st, t, READY)
      && t.socket == a.step.p
    ensures ThreadTimed(Apply(s, a), t)
  {
    PickFolds(s.st.alpha, s.st.tcbs[t].time, s.st.log[t]);
  }

  /** The scan touches one thread's record, and picks no other. */
  lemma ScheduleLeaves(s: Sys, a: Action, t: Id)
    requires Guard(s, a) && Safe(s, a) && a.step.Schedules? && t in s.st.tcbs && t in s.st.log
    requires var pos := ChosenPos(s.st, a.step.p, a.now);
      t != if pos == -1 then Exec(s.st, a.step.p) else s.st.programs[a.step.p].ready[pos]
    ensures var r := Apply(s, a);
      && t in r.st.tcbs && t in r.st.log && r.st.tcbs[t] == s.st.tcbs[t] && r.st.log[t] == s.st.log[t]
      && r.st.alpha == s.st.alpha && s.clock <= r.clock && (Picked(r, t) <==> Picked(s, t))
  {
    hide ChosenPos, Switch, Estimate, Bound;
  }

  lemma OtherTimed(s: Sys, a: Action, t: Id)
    requires ThreadTimed(s, t) && Guard(s, a) && Safe(s, a) && a.step.Schedules?
    requires var pos := ChosenPos(s.st, a.step.p, a.now);
      t != if pos == -1 then Exec(s.st, a.step.p) else s.st.programs[a.step.p].ready[pos]
    ensures ThreadTimed(Apply(s, a), t)
  {
    ScheduleLeaves(s, a, t);
    hide Guard, Safe, Apply, ChosenPos, Picked;
    UntouchedTimed(s, Apply(s, a), t);
  }

  lemma ReadyAt(st: State, p: int, i: nat)
    requires Placed(st) && p in st.programs && i < |st.programs[p].ready|
    ensures Is(st, st.programs[p].ready[i], READY) && st.programs[p].ready[i].socket == p
  {
    assert st.programs[p].ready[i] in st.programs[p].ready;
    Contents(st);
  }

  lemma ScheduleTimed(s: Sys, a: Action)
    requires Timed(s) && Guard(s, a) && Safe(s, a) && a.step.Schedules? && Placed(s.st)
    ensures Timed(Apply(s, a))
  {
    var r := Apply(s, a);
    var p := a.step.p;
    var pos := ChosenPos(s.st, p, a.now);
    SameThreads(s, a);
    if pos == -1 {
      ExecIs(s.st, p);
    } else {
      ReadyAt(s.st, p, pos);
    }
    var c := if pos == -1 then Exec(s.st, p) else s.st.programs[p].ready[pos];
    forall t | t in r.st.tcbs ensures ThreadTimed(r, t) {
      if t != c {
        OtherTimed(s, a, t);
      } else if pos == -1 {
        KeptTimed(s, a, t);
      } else {
        PickTimed(s, a, t);
      }
    }
  }

  lemma PhaseFacts(s: Sys, a: Action)
    requires Phases(s) && Guard(s, a)
    ensures s.pc.Keys == s.st.programs.Keys
    ensures a.step.LoadingMain? ==> PhaseOk(s.st, Loading, a.step.p)
    ensures a.step.Resumes? ==> s.pc[a.step.p].next.socket == a.step.p
  {
    if a.step.LoadingMain? || a.step.Resumes? {
      assert PhaseOk(s.st, s.pc[a.step.p], a.step.p);
    }
  }

  /** Every thread's record keeps agreeing with its log. */
  lemma TimedKept(s: Sys, a: Action)
    requires Timed(s) && Placed(s.st) && Phases(s) && 0.0 <= s.clock && Guard(s, a) && Safe(s, a)
    ensures Timed(Apply(s, a))
  {
    PhaseFacts(s, a);
    if a.step.Schedules? {
      ScheduleTimed(s, a);
    } else if a.step.Creating? {
      CreateTimed(s, a);
    } else {
      StepTimed(s, a);
    }
  }

  // ---- control points ----

  /** Nothing another program's phase looks at has changed. */
  ghost predicate Unseen(st: State, r: State, p: int) {
    && p in st.programs && p in r.programs
    && r.programs[p].exec == st.programs[p].exec && r.programs[p].mainLoaded == st.programs[p].mainLoaded
    && (forall t :: t in st.tcbs && t.socket == p ==>
        t in r.tcbs && r.tcbs[t].state == st.tcbs[t].state && |r.tcbs[t].joined| >= |st.tcbs[t].joined|)
    && (forall t :: t in st.log && t.socket == p ==> t in r.log && r.log[t] == st.log[t])
  }

  lemma PhaseFrame(st: State, r: State, pc: Pc, p: int)
    requires PhaseOk(st, pc, p) && Unseen(st, r, p)
    ensures PhaseOk(r, pc, p)
  {
  }

  /** The program whose threads a step can touch: the acting one, or the one being admitted. */
  ghost predicate Acts(s: Sys, a: Action, p: int) {
    match a.step
    case LtMove => s.lt.Checked? && p == s.lt.t.socket
    case LtFetch => false
    case LtCheck => false
    case _ => p == a.step.p
  }

  lemma PreparedUnseen(s: Sys, a: Action, p: int)
    requires Safe(s, a) && !Acts(s, a, p) && p in s.st.programs && !a.step.Schedules?
    ensures Unseen(s.st, Prepared(s, a), p)
  {
    hide Acts, MoveSafe, Unseen;
    if a.step.Signals? {
      SignalUnseen(s.st, a.step.p, a.step.tid, a.step.name, p);
    } else {
      PreparedProgram(s, a, p);
      PreparedThreads(s, a, p);
      hide Safe, Prepared;
      SameUnseen(s.st, Prepared(s, a), p);
    }
  }

  lemma PreparedProgram(s: Sys, a: Action, p: int)
    requires Safe(s, a) && !Acts(s, a, p) && p in s.st.programs && !a.step.Schedules? && !a.step.Signals?
    ensures p in Prepared(s, a).programs && Prepared(s, a).programs[p] == s.st.programs[p]
  {
    hide MoveSafe, Choose, ChosenPos, Is, Signal;
  }

  lemma PreparedThreads(s: Sys, a: Action, p: int)
    requires Safe(s, a) && !Acts(s, a, p) && !a.step.Schedules? && !a.step.Signals?
    ensures forall t :: t in s.st.tcbs && t.socket == p ==>
      t in Prepared(s, a).tcbs && Prepared(s, a).tcbs[t] == s.st.tcbs[t]
    ensures forall t :: t in s.st.log && t.socket == p ==>
      t in Prepared(s, a).log && Prepared(s, a).log[t] == s.st.log[t]
  {
    hide MoveSafe, Choose, ChosenPos, Is, Signal;
  }

  lemma SameUnseen(st: State, r: State, p: int)
    requires p in st.programs && p in r.programs && r.programs[p] == st.programs[p]
    requires forall t :: t in st.tcbs && t.socket == p ==> t in r.tcbs && r.tcbs[t] == st.tcbs[t]
    requires forall t :: t in st.log && t.socket == p ==> t in r.log && r.log[t] == st.log[t]
    ensures Unseen(st, r, p)
  {}

  lemma SignalUnseen(st: State, q: int, tid: int, name: string, p: int)
    requires Running(st, q) && name in st.sems && SignalDefined(st, q, tid, name) && p in st.programs
    ensures Unseen(st, Signal(st, q, tid, name), p)
  {}

  lemma ScheduleUnseen(s: Sys, a: Action, p: int)
    requires Safe(s, a) && !Acts(s, a, p) && p in s.st.programs && a.step.Schedules? && Placed(s.st)
    ensures Unseen(s.st, Apply(s, a).st, p)
  {
    hide Placed, ChosenPos, Switch, Estimate, Bound;
    var q := a.step.p;
    var pos := ChosenPos(s.st, q, a.now);
    if pos == -1 {
      ExecIs(s.st, q);
    } else {
      ReadyAt(s.st, q, pos);
    }
  }

  lemma UnseenMove(st: State, b: State, p: int, t: Id, to: ThreadState, now: real)
    requires Unseen(st, b, p) && Known(b, t) && t.socket != p && b.tcbs[t].state != to
    ensures Unseen(st, Move(b, t, to, now), p)
  {
    MoveFrame(b, t, to, now);
  }

  lemma UnseenStep(s: Sys, a: Action, p: int)
    requires Safe(s, a) && !Acts(s, a, p) && p in s.st.programs && Placed(s.st)
    requires Moved(s, a).Some? ==> Moved(s, a).value.t.socket != p
    ensures Unseen(s.st, Apply(s, a).st, p)
  {
    if a.step.Schedules? {
      ScheduleUnseen(s, a, p);
    } else {
      NormalForm(s, a);
      PreparedUnseen(s, a, p);
      match Moved(s, a)
      case None =>
      case Some(Target(t, to)) =>
        PreparedKeeps(s, a);
        UnseenMove(s.st, Prepared(s, a), p, t, to, a.now);
    }
  }

  /** A step moves only a thread of the program it acts on. */
  lemma MovedActs(s: Sys, a: Action)
    requires Guard(s, a) && Safe(s, a) && Placed(s.st) && Counted(s.st) && OneWaker(s) && Phases(s)
    ensures Moved(s, a).Some? ==> Acts(s, a, Moved(s, a).value.t.socket)
  {
    match a.step
    case Waits(p, _, _) => ExecIs(s.st, p);
    case Joins(p, _) => ExecIs(s.st, p);
    case Finishes(p) => ExecIs(s.st, p);
    case Preempts(p) => ExecIs(s.st, p);
    case Unjoins(p) => UnjoinSafe(s, p, s.pc[p].k);
    case WakeNext(p) =>
    case Resumes(p) => PhaseFacts(s, a);
    case _ =>
  }

  lemma PcStays(s: Sys, a: Action, p: int)
    requires Safe(s, a) && p in s.pc && !Acts(s, a, p)
    ensures p in Apply(s, a).pc && Apply(s, a).pc[p] == s.pc[p]
  {
    hide MoveSafe, Move, Wait, Signal, Join, WakeOne, Admit, Choose, ChosenPos;
  }

  lemma OtherPhase(s: Sys, a: Action, p: int)
    requires Guard(s, a) && Safe(s, a) && Placed(s.st) && Counted(s.st) && OneWaker(s) && Phases(s)
    requires p in s.pc && !Acts(s, a, p)
    ensures p in Apply(s, a).pc && PhaseOk(Apply(s, a).st, Apply(s, a).pc[p], p)
  {
    MovedActs(s, a);
    UnseenStep(s, a, p);
    PcStays(s, a, p);
    assert PhaseOk(s.st, s.pc[p], p);
    hide Guard, Safe, Apply, Placed, Counted, OneWaker, Phases, Acts, PhaseOk, Unseen;
    PhaseFrame(s.st, Apply(s, a).st, s.pc[p], p);
  }

  /** Admission gives a waiting main thread its READY state and its release together. */
  lemma AdmitPhase(s: Sys, a: Action, p: int)
    requires Guard(s, a) && Safe(s, a) && a.step.LtMove? && p == s.lt.t.socket && p in s.pc && PhaseOk(s.st, s.pc[p], p)
    requires s.st.tcbs.Keys == s.st.log.Keys
    requires ThreadTimed(s, s.lt.t)
    ensures PhaseOk(Apply(s, a).st, s.pc[p], p)
  {
    hide Guard, Move, Switch, Bursts, Spent;
    var t := s.lt.t;
    NormalForm(s, a);
    MoveFrame(Prepared(s, a), t, READY, a.now);
    SwitchUnfolds(s.st.log[t], Event(READY, a.now));
  }

  lemma CreatePhase(s: Sys, a: Action)
    requires Guard(s, a) && Safe(s, a) && a.step.Creating? && Placed(s.st) && MainFirst(s.st)
    ensures PhaseOk(Apply(s, a).st, Apply(s, a).pc[a.step.p], a.step.p)
  {
    var p := a.step.p;
    if a.step.tid == 0 && Running(s.st, p) {
      ExecIs(s.st, p);
      assert false;
    }
  }

  lemma PreemptPhase(s: Sys, a: Action)
    requires Guard(s, a) && Safe(s, a) && Placed(s.st)
    requires a.step.Preempts? || a.step.Unjoins?
    requires Moved(s, a).value.t.socket == a.step.p && PhaseOk(s.st, s.pc[a.step.p], a.step.p)
    ensures PhaseOk(Apply(s, a).st, Apply(s, a).pc[a.step.p], a.step.p)
  {
    if a.step.Preempts? {
      ExecIs(s.st, a.step.p);
    }
    NormalForm(s, a);
    MoveFrame(s.st, Moved(s, a).value.t, READY, a.now);
  }

  lemma SchedulePhase(s: Sys, a: Action)
    requires Guard(s, a) && Safe(s, a) && a.step.Schedules? && Placed(s.st)
    ensures PhaseOk(Apply(s, a).st, Apply(s, a).pc[a.step.p], a.step.p)
  {
    var pos := ChosenPos(s.st, a.step.p, a.now);
    if pos != -1 {
      ReadyAt(s.st, a.step.p, pos);
    }
  }

  lemma ClosePhase(s: Sys, a: Action)
    requires Guard(s, a) && Safe(s, a) && a.step.Closes? && Placed(s.st)
    ensures PhaseOk(Apply(s, a).st, Apply(s, a).pc[a.step.p], a.step.p)
  {
    ExecIs(s.st, a.step.p);
  }

  predicate Plain(step: Step) {
    || step.Connecting? || step.LoadingMain? || step.Waits? || step.Signals? || step.Joins?
    || step.Finishes? || step.WakeBegins? || step.WakeNext? || step.WakeEnds? || step.Resumes?
  }

  lemma PlainPc(s: Sys, a: Action)
    requires Guard(s, a) && Safe(s, a) && Plain(a.step)
    ensures a.step.p in Apply(s, a).pc && (Apply(s, a).pc[a.step.p].Idle? || Apply(s, a).pc[a.step.p].Waking?)
    ensures a.step.Connecting? ==> a.step.p in Apply(s, a).st.programs
    ensures !a.step.Connecting? ==> a.step.p in s.pc
  {
    hide MoveSafe, Move, Wait, Signal, Join, WakeOne;
  }

  lemma PlainPhase(s: Sys, a: Action)
    requires Guard(s, a) && Safe(s, a) && s.pc.Keys == s.st.programs.Keys && Plain(a.step)
    ensures a.step.p in Apply(s, a).pc && PhaseOk(Apply(s, a).st, Apply(s, a).pc[a.step.p], a.step.p)
  {
    hide Safe, Guard, Apply;
    PlainPc(s, a);
    if !a.step.Connecting? {
      StepPrograms(s, a);
    }
  }

  lemma ActingPhase(s: Sys, a: Action)
    requires Guard(s, a) && Safe(s, a) && Placed(s.st) && Counted(s.st) && OneWaker(s) && Phases(s)
    requires !a.step.LtMove? && !a.step.LtFetch? && !a.step.LtCheck?
    ensures a.step.p in Apply(s, a).pc && PhaseOk(Apply(s, a).st, Apply(s, a).pc[a.step.p], a.step.p)
  {
    var p := a.step.p;
    assert p in s.pc ==> PhaseOk(s.st, s.pc[p], p);
    MovedActs(s, a);
    match a.step
    case Creating(_, _) => CreatePhase(s, a);
    case Preempts(_) => PreemptPhase(s, a);
    case Unjoins(_) => PreemptPhase(s, a);
    case Schedules(_) => SchedulePhase(s, a);
    case Closes(_, _) => ClosePhase(s, a);
    case _ => PlainPhase(s, a);
  }

  lemma PhasesOkKept(s: Sys, a: Action)
    requires Guard(s, a) && Safe(s, a) && Placed(s.st) && Counted(s.st) && OneWaker(s) && Phases(s) && Timed(s)
    ensures forall p :: p in Apply(s, a).pc ==> PhaseOk(Apply(s, a).st, Apply(s, a).pc[p], p)
  {
    var r := Apply(s, a);
    forall p | p in r.pc ensures PhaseOk(r.st, r.pc[p], p) {
      if !Acts(s, a, p) {
        OtherPhase(s, a, p);
      } else if a.step.LtMove? {
        assert PhaseOk(s.st, s.pc[p], p) && ThreadTimed(s, s.lt.t);
        AdmitPhase(s, a, p);
      } else {
        ActingPhase(s, a);
      }
    }
  }

  lemma MainFirstKept(s: Sys, a: Action)
    requires Guard(s, a) && Safe(s, a) && Placed(s.st) && MainFirst(s.st)
    ensures MainFirst(Apply(s, a).st)
  {
    if a.step.Connecting? {
      NewMainFirst(s, a);
    } else {
      StepPrograms(s, a);
      StepThreads(s, a);
      MainKept(s, a);
    }
  }

  lemma NewMainFirst(s: Sys, a: Action)
    requires Guard(s, a) && Safe(s, a) && a.step.Connecting? && MainFirst(s.st) && Placed(s.st)
    ensures MainFirst(Apply(s, a).st)
  {
  }

  /** The threads after a step: those there were, and the one it creates, whose main thread is there too. */
  lemma StepThreads(s: Sys, a: Action)
    requires Guard(s, a) && Safe(s, a) && !a.step.Connecting?
    ensures !a.step.Creating? ==> Apply(s, a).st.tcbs.Keys == s.st.tcbs.Keys
    ensures a.step.Creating? ==> Apply(s, a).st.tcbs.Keys == s.st.tcbs.Keys + {Id(a.step.p, a.step.tid)}
    ensures a.step.Creating? ==> a.step.tid == 0 || Id(a.step.p, 0) in s.st.tcbs
    ensures a.step.LtMove? && s.lt.Checked? ==> s.lt.t in s.st.tcbs
  {
    if !a.step.Creating? {
      SameThreads(s, a);
    }
  }

  lemma MainKept(s: Sys, a: Action)
    requires Safe(s, a) && MainFirst(s.st) && SamePrograms(s, a, Apply(s, a).st)
    requires !a.step.Creating? ==> Apply(s, a).st.tcbs.Keys == s.st.tcbs.Keys
    requires a.step.Creating? ==> Apply(s, a).st.tcbs.Keys == s.st.tcbs.Keys + {Id(a.step.p, a.step.tid)}
    requires a.step.Creating? ==> a.step.tid == 0 || Id(a.step.p, 0) in s.st.tcbs
    requires a.step.LtMove? && s.lt.Checked? ==> s.lt.t in s.st.tcbs
    ensures MainFirst(Apply(s, a).st)
  {
    hide Safe, Apply;
    assert forall t :: t in Apply(s, a).st.tcbs ==> t in Apply(s, a).st.tcbs.Keys;
  }

  /** The slot `check_multiprog` saw is still free whatever the programs do before the admission. */
  lemma SlotKept(s: Sys, a: Action)
    requires Guard(s, a) && Safe(s, a) && Placed(s.st) && !a.step.LtMove?
    ensures Apply(s, a).st.available >= s.st.available
    ensures a.step.Creating? || Apply(s, a).st.newList == s.st.newList
  {
    NormalForm(s, a);
    match Moved(s, a)
    case None =>
      if !a.step.Connecting? && !a.step.Creating? { PreparedKeeps(s, a); }
    case Some(Target(t, to)) =>
      PreparedKeeps(s, a);
      MoveFrame(Prepared(s, a), t, to, a.now);
      MoveSlots(Prepared(s, a), t, to, a.now);
      if a.step.Preempts? { ExecIs(s.st, a.step.p); }
  }

  lemma MovedCounter(s: Sys, a: Action)
    requires Safe(s, a)
    ensures Apply(s, a).st.newCounter
      == s.st.newCounter + (if a.step.Creating? then 1 else if a.step.LtFetch? then -1 else 0)
  {
    NormalForm(s, a);
    match Moved(s, a)
    case None =>
    case Some(Target(t, to)) => MoveFrame(Prepared(s, a), t, to, a.now);
  }

  lemma AdmitLt(s: Sys, a: Action)
    requires Guard(s, a) && Safe(s, a) && a.step.LtMove? && LtOk(s)
    ensures LtOk(Apply(s, a))
  {
    NormalForm(s, a);
    MovedCounter(s, a);
    MoveFrame(Prepared(s, a), s.lt.t, READY, a.now);
    RemoveHead(s.st.newList);
  }

  lemma LtOkKept(s: Sys, a: Action)
    requires Guard(s, a) && Safe(s, a) && Placed(s.st) && LtOk(s)
    ensures LtOk(Apply(s, a))
  {
    if a.step.LtMove? {
      AdmitLt(s, a);
    } else {
      MovedCounter(s, a);
      SlotKept(s, a);
    }
  }
}
