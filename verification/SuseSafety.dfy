// In every state that satisfies the invariant, every step the program can take is safe.
module SuseSafety {
  import opened Lists
  import opened SuseTiming
  import opened SuseState
  import opened SuseInvariant
  import opened SuseSystem

  /** The containers, read thread by thread: membership and the state field say the same. */
  lemma Contents(st: State)
    requires Placed(st)
    ensures forall t :: t in st.newList <==> Is(st, t, NEW)
    ensures forall t :: t in st.blockedList <==> Is(st, t, BLOCKED)
    ensures forall t :: t in st.exitList <==> Is(st, t, EXIT)
    ensures forall p, t :: p in st.programs ==> (t in st.programs[p].ready <==> Is(st, t, READY) && t.socket == p)
    ensures forall p, t :: p in st.programs ==> (st.programs[p].exec == Some(t) <==> Is(st, t, EXEC) && t.socket == p)
    ensures forall t :: t in st.tcbs ==> Known(st, t)
  {
    var where := StateFields(st.tcbs);
    assert forall t, s: ThreadState :: At(where, t, s) <==> Is(st, t, s);
    forall p, t | p in st.programs
      ensures t in st.programs[p].ready <==> Is(st, t, READY) && t.socket == p
      ensures st.programs[p].exec == Some(t) <==> Is(st, t, EXEC) && t.socket == p
    {
      var prog := st.programs[p];
      assert ProgramHolds(prog, Own(where, p));
      assert forall s: ThreadState :: At(Own(where, p), t, s) <==> At(where, t, s) && t.socket == p;
      assert t in Slot(prog.exec) <==> prog.exec == Some(t);
    }
  }

  lemma {:induction false} BurstsBelow(log: Log, m: real)
    requires WellFormed(log) && 0.0 <= log[0].at && Last(log).at <= m
    ensures forall i :: 0 <= i < |Bursts(log)| ==> 0.0 <= Bursts(log)[i] <= m
  {
    if |log| > 1 {
      var l := log[..|log| - 1];
      assert WellFormed(l);
      SpentTelescopes(l);
      BurstsBelow(l, m);
      assert log == l + [Last(log)];
      SwitchUnfolds(l, Last(log));
    }
  }

  /** The estimate the scheduler compares never exceeds the clock. */
  lemma EstimateBelowClock(s: Sys, t: Id)
    requires 0.0 <= s.st.alpha <= 1.0 && 0.0 <= s.clock
    requires Timed(s) && Is(s.st, t, READY) && AtPc(s, t.socket, Idle)
    ensures 0.0 <= Estimate(s.st.alpha, s.st.tcbs[t].time) <= s.clock
  {
    assert ThreadTimed(s, t);
    var log := s.st.log[t];
    EstimateIsAverage(s.st.alpha, s.st.tcbs[t].time, log);
    BurstsBelow(log, s.clock);
    AverageBounded(s.st.alpha, Bursts(log), s.clock);
  }

  lemma ScanDefined(st: State, p: int)
    requires Placed(st) && p in st.programs
    ensures CanScan(st, p)
  {
    Contents(st);
    var ready := st.programs[p].ready;
    forall i | 0 <= i < |ready| ensures Known(st, ready[i]) {
      assert ready[i] in ready;
    }
    assert Running(st, p) ==> st.programs[p].exec == Some(Exec(st, p));
  }

  /** With an empty exec slot the scan fails, and the program dereferences null, exactly when no ready estimate is
      below FLT_MAX. */
  lemma ScanFailsIff(st: State, p: int, now: real)
    requires CanScan(st, p) && !Running(st, p)
    ensures ChosenPos(st, p, now) == -1 <==>
            forall i :: 0 <= i < |st.programs[p].ready| ==>
              FLT_MAX <= Estimate(st.alpha, st.tcbs[st.programs[p].ready[i]].time)
  {
    var estimates := Estimates(st, st.programs[p].ready);
    BestPosIsFirstLeast(estimates, FLT_MAX);
    assert forall i :: 0 <= i < |estimates| ==>
      estimates[i] == Estimate(st.alpha, st.tcbs[st.programs[p].ready[i]].time);
  }

  lemma FirstReady(s: Sys, p: int)
    requires Placed(s.st) && Timed(s) && 0.0 <= s.st.alpha <= 1.0 && 0.0 <= s.clock < FLT_MAX
    requires AtPc(s, p, Idle) && p in s.st.programs && s.st.programs[p].ready != []
    ensures var t := s.st.programs[p].ready[0]; Known(s.st, t) && Estimate(s.st.alpha, s.st.tcbs[t].time) < FLT_MAX
  {
    var t := s.st.programs[p].ready[0];
    assert t in s.st.programs[p].ready;
    Contents(s.st);
    EstimateBelowClock(s, t);
  }

  lemma ScheduleSafe(s: Sys, p: int, now: real)
    requires Placed(s.st) && Timed(s) && 0.0 <= s.st.alpha <= 1.0 && 0.0 <= s.clock < FLT_MAX
    requires AtPc(s, p, Idle) && p in s.st.programs && (Running(s.st, p) || s.st.programs[p].ready != [])
    ensures CanScan(s.st, p) && (ChosenPos(s.st, p, now) == -1 ==> Running(s.st, p))
  {
    ScanDefined(s.st, p);
    if !Running(s.st, p) {
      FirstReady(s, p);
      ScanFailsIff(s.st, p, now);
    }
  }

  /** A legal change of state finds its thread where it looks for it, and its counters positive. */
  lemma MoveIsSafe(st: State, t: Id, from: ThreadState, to: ThreadState)
    requires Placed(st) && Counted(st) && Is(st, t, from) && LegalChange(from, to) && from != to
    requires from == NEW ==> st.available > 0
    requires to == EXEC ==> t.socket in st.programs && st.programs[t.socket].exec == None
    ensures MoveSafe(st, t, to)
  {
    Contents(st);
    assert ProgramCounted(st.programs[t.socket]);
  }

  lemma ExecIs(st: State, p: int)
    requires Placed(st) && Running(st, p)
    ensures Is(st, Exec(st, p), EXEC) && Exec(st, p).socket == p
  {
    Contents(st);
    assert st.programs[p].exec == Some(Exec(st, p));
  }

  lemma SignalSafe(s: Sys, p: int, tid: int, name: string)
    requires Placed(s.st) && SemsOk(s.st) && OneWaker(s) && Running(s.st, p) && name in s.st.sems
    ensures SignalDefined(s.st, p, tid, name)
  {
    var blocked := s.st.sems[name].blocked;
    if blocked != [] {
      assert Queue(s, OnSem(name)) == blocked;
      assert InQueue(s, blocked[0], OnSem(name));
    }
  }

  /** A signal looks for a sleeper in an empty queue exactly on a semaphore of maximum 0 whose value is 0. */
  lemma EmptyWakeupIff(sem: Sem)
    requires sem.value <= sem.max && |sem.blocked| == Waiting(sem.value)
    ensures Raised(sem) <= 0 && sem.blocked == [] <==> sem.value == 0 && sem.max == 0
  {
    if sem.value < 0 {
      assert |sem.blocked| > 0;
    }
  }

  lemma WakeSafe(s: Sys, p: int, i: nat)
    requires Placed(s.st) && Counted(s.st) && OneWaker(s) && p in s.st.programs && i < |s.st.programs[p].wakeup|
    ensures var t := s.st.programs[p].wakeup[i];
      MoveSafe(s.st, t, READY) && Is(s.st, t, BLOCKED) && t.socket == p && s.st.programs[p].counter > 0
  {
    var w := s.st.programs[p].wakeup;
    assert Queue(s, OnWakeup(p)) == w;
    assert InQueue(s, w[i], OnWakeup(p));
    MoveIsSafe(s.st, w[i], BLOCKED, READY);
    assert ProgramCounted(s.st.programs[p]);
  }

  /** `unjoin_exec` only ever wakes threads that are BLOCKED: this is what keeps EXIT final. */
  lemma UnjoinSafe(s: Sys, p: int, k: nat)
    requires Placed(s.st) && Counted(s.st) && OneWaker(s) && Running(s.st, p) && Exec(s.st, p) in s.st.tcbs
    requires p in s.pc && s.pc[p] == Closing(k) && k < |s.st.tcbs[Exec(s.st, p)].joined|
    ensures var t := s.st.tcbs[Exec(s.st, p)].joined[k];
      MoveSafe(s.st, t, READY) && Is(s.st, t, BLOCKED) && t.socket == p
  {
    ExecIs(s.st, p);
    var u := Exec(s.st, p);
    var joined := s.st.tcbs[u].joined;
    assert Queue(s, OnJoin(u)) == joined[k..];
    assert joined[k..][0] == joined[k];
    assert InQueue(s, joined[k], OnJoin(u));
    MoveIsSafe(s.st, joined[k], BLOCKED, READY);
  }

  lemma SwitchSafe(s: Sys, p: int)
    requires Placed(s.st) && Counted(s.st) && p in s.pc && PhaseOk(s.st, s.pc[p], p)
    ensures s.pc[p].Loading? && s.st.programs[p].mainLoaded ==> MoveSafe(s.st, Id(p, 0), EXEC)
    ensures s.pc[p].Preempting? ==> Running(s.st, p) && MoveSafe(s.st, Exec(s.st, p), READY)
    ensures s.pc[p].Resuming? ==> MoveSafe(s.st, s.pc[p].next, EXEC)
    ensures s.pc[p].Closing? ==> MoveSafe(s.st, Exec(s.st, p), EXIT)
  {
    match s.pc[p]
    case Loading => if s.st.programs[p].mainLoaded { MoveIsSafe(s.st, Id(p, 0), READY, EXEC); }
    case Preempting(n) => ExecIs(s.st, p); MoveIsSafe(s.st, Exec(s.st, p), EXEC, READY);
    case Resuming(n) => MoveIsSafe(s.st, n, READY, EXEC);
    case Closing(_) => ExecIs(s.st, p); MoveIsSafe(s.st, Exec(s.st, p), EXEC, EXIT);
    case _ =>
  }

  lemma BlockSafe(st: State, p: int)
    requires Placed(st) && Counted(st) && Running(st, p)
    ensures MoveSafe(st, Exec(st, p), BLOCKED)
  {
    ExecIs(st, p);
    MoveIsSafe(st, Exec(st, p), EXEC, BLOCKED);
  }

  lemma JoinedKnown(st: State, u: Id)
    requires Placed(st) && u in st.tcbs
    ensures Known(st, u)
  {
    Contents(st);
  }

  lemma AdmitSafe(s: Sys)
    requires Placed(s.st) && Counted(s.st) && LtOk(s) && s.lt.Checked?
    ensures MoveSafe(s.st, s.lt.t, READY) && Is(s.st, s.lt.t, NEW)
  {
    assert s.st.newList[0] in s.st.newList;
    Contents(s.st);
    MoveIsSafe(s.st, s.lt.t, NEW, READY);
  }

  /** No step dereferences null, waits on a semaphore while holding a lock, or leaves the legal life cycle. */
  lemma StepIsSafe(s: Sys, a: Action)
    requires Inv(s) && Guard(s, a)
    ensures Safe(s, a)
  {
    hide Placed, Counted, SemsOk, OneWaker, Timed, PhaseOk, MoveSafe, CanScan, MainFirst;
    match a.step
    case LoadingMain(p) => SwitchSafe(s, p);
    case LtMove => AdmitSafe(s);
    case Waits(p, _, _) => BlockSafe(s.st, p);
    case Signals(p, tid, name) => SignalSafe(s, p, tid, name);
    case Joins(p, tid) => BlockSafe(s.st, p); JoinedKnown(s.st, Id(p, tid));
    case Unjoins(p) => UnjoinSafe(s, p, s.pc[p].k);
    case Finishes(p) => SwitchSafe(s, p);
    case WakeNext(p) => WakeSafe(s, p, s.pc[p].i);
    case Schedules(p) => ScheduleSafe(s, p, a.now);
    case Preempts(p) => SwitchSafe(s, p);
    case Resumes(p) => SwitchSafe(s, p);
    case _ =>
  }
}
