// What holds after every run of the scheduler, for any number of programs, threads and semaphores.
module SuseRuns {
  import opened Lists
  import opened SuseTiming
  import opened SuseState
  import opened SuseInvariant
  import opened SuseSystem
  import opened SuseSafety
  import opened SusePlacement
  import opened SuseWakers
  import opened SusePhases

  lemma ConstantsKept(s: Sys, a: Action)
    requires Safe(s, a)
    ensures Apply(s, a).st.alpha == s.st.alpha && Apply(s, a).clock == a.now
    ensures Apply(s, a).st.maxMultiprog == s.st.maxMultiprog
  {
    NormalForm(s, a);
    if Moved(s, a).Some? {
      PreparedKeeps(s, a);
      MoveFrame(Prepared(s, a), Moved(s, a).value.t, Moved(s, a).value.to, a.now);
    } else if !a.step.Connecting? && !a.step.Creating? {
      PreparedKeeps(s, a);
    }
  }

  lemma KeysKept(s: Sys, a: Action)
    requires Safe(s, a) && s.pc.Keys == s.st.programs.Keys && Guard(s, a)
    ensures Apply(s, a).pc.Keys == Apply(s, a).st.programs.Keys
  {
    PcKeys(s, a);
    if a.step.Connecting? {
      assert Apply(s, a).st == Connect(s.st, a.step.p);
    } else {
      hide Safe, Guard, Apply;
      StepPrograms(s, a);
    }
  }

  lemma PcKeys(s: Sys, a: Action)
    requires Safe(s, a) && s.pc.Keys == s.st.programs.Keys && Guard(s, a)
    ensures Apply(s, a).pc.Keys == if a.step.Connecting? then s.pc.Keys + {a.step.p} else s.pc.Keys
  {
    hide MoveSafe, Move, Admit, Wait, Signal, Join, WakeOne, Choose;
  }

  /** The invariant is inductive. */
  lemma InvKept(s: Sys, a: Action)
    requires Inv(s) && Guard(s, a) && Safe(s, a)
    ensures Inv(Apply(s, a))
  {
    ConstantsKept(s, a);
    PlacedKept(s, a);
    SemsKept(s, a);
    OneWakerKept(s, a);
    TimedKept(s, a);
    assert Phases(Apply(s, a)) by {
      KeysKept(s, a);
      PhasesOkKept(s, a);
      MainFirstKept(s, a);
      LtOkKept(s, a);
    }
  }

  lemma {:induction false} RunInv(s: Sys, run: seq<Action>)
    requires Inv(s) && CanRun(s, run)
    ensures Inv(After(s, run))
  {
    hide Inv, Guard, Safe, Apply;
    if run != [] {
      var n := |run| - 1;
      RunInv(s, run[..n]);
      InvKept(After(s, run[..n]), run[n]);
    }
  }

  /** After any run, every step the source can take is defined: no null thread, no blocking under a lock, no illegal
      move. */
  lemma NoStepGoesWrong(s: Sys, run: seq<Action>, a: Action)
    requires Inv(s) && CanRun(s, run) && Guard(After(s, run), a)
    ensures Safe(After(s, run), a) && CanRun(s, run + [a])
    ensures After(s, run + [a]) == Apply(After(s, run), a)
  {
    hide Inv, Guard, Safe, Apply;
    RunInv(s, run);
    StepIsSafe(After(s, run), a);
    assert (run + [a])[..|run|] == run;
  }

  /** Every state that a correctly configured scheduler reaches satisfies the invariant, so all that follows is about
      every run. */
  lemma Reachable(alpha: real, maxMultiprog: nat, config: map<string, SemConfig>, now: real, run: seq<Action>)
    requires ConfigOk(alpha, config) && now >= 0.0 && CanRun(Start(alpha, maxMultiprog, config, now), run)
    ensures Inv(Start(alpha, maxMultiprog, config, now)) && Inv(After(Start(alpha, maxMultiprog, config, now), run))
  {
    hide Inv, Guard, Safe, Apply, Start;
    StartInv(alpha, maxMultiprog, config, now);
    RunInv(Start(alpha, maxMultiprog, config, now), run);
  }

  /** No thread is ever lost: the blocked list is the disjoint union of everything that will still be woken. */
  lemma BlockedIsOwed(s: Sys, run: seq<Action>)
    requires Inv(s) && CanRun(s, run)
    ensures var r := After(s, run);
      && NoDup(r.st.blockedList)
      && (forall w :: NoDup(Queue(r, w)))
      && (forall t :: t in r.st.blockedList <==> exists w :: InQueue(r, t, w))
      && (forall t, w, v :: InQueue(r, t, w) && InQueue(r, t, v) ==> w == v)
  {
    RunInv(s, run);
    var r := After(s, run);
    Contents(r.st);
    assert Holds(r.st.blockedList, StateFields(r.st.tcbs), BLOCKED);
  }

  lemma ExitStep(s: Sys, a: Action, t: Id)
    requires Inv(s) && Guard(s, a) && Safe(s, a) && Is(s.st, t, EXIT)
    ensures Is(Apply(s, a).st, t, EXIT)
  {
    LifeCycle(s, a, t);
  }

  /** A finished thread stays finished in every continuation of a run. */
  lemma {:induction false} ExitIsFinal(s: Sys, run: seq<Action>, t: Id)
    requires Inv(s) && CanRun(s, run) && Is(s.st, t, EXIT)
    ensures Is(After(s, run).st, t, EXIT)
  {
    hide Inv, Guard, Safe, Apply;
    if run != [] {
      var n := |run| - 1;
      ExitIsFinal(s, run[..n], t);
      RunInv(s, run[..n]);
      ExitStep(After(s, run[..n]), run[n], t);
    }
  }

  lemma SlotStep(s: Sys, a: Action)
    requires Inv(s) && Guard(s, a) && Safe(s, a) && s.lt.Checked? && !a.step.LtMove?
    ensures Apply(s, a).lt == s.lt && Apply(s, a).st.available >= s.st.available
  {
    SlotKept(s, a);
  }

  lemma SlotReady(s: Sys)
    requires Inv(s) && s.lt.Checked?
    ensures s.st.available > 0 && MoveSafe(s.st, s.lt.t, READY)
  {
    AdmitSafe(s);
  }

  /** Once `check_multiprog` has let the long-term scheduler pass, its admission can proceed after any steps of the
      programs. */
  lemma {:induction false} CheckedSlotStays(s: Sys, run: seq<Action>)
    requires Inv(s) && s.lt.Checked? && CanRun(s, run)
    requires forall i :: 0 <= i < |run| ==> !run[i].step.LtMove?
    ensures var r := After(s, run);
      r.lt == s.lt && r.st.available >= s.st.available > 0 && MoveSafe(r.st, s.lt.t, READY)
  {
    hide Inv, Guard, Safe, Apply, MoveSafe;
    if run == [] {
      SlotReady(s);
    } else {
      var n := |run| - 1;
      CheckedSlotStays(s, run[..n]);
      RunInv(s, run[..n]);
      SlotStep(After(s, run[..n]), run[n]);
      RunInv(s, run);
      SlotReady(After(s, run));
    }
  }

  /** Degree, free slots and the wakeup counters after any run. */
  lemma CountersAgree(s: Sys, run: seq<Action>)
    requires Inv(s) && CanRun(s, run)
    ensures var st := After(s, run).st;
      && st.degree == |ActiveThreads(st.tcbs)| && st.degree + st.available == st.maxMultiprog
      && 0 <= st.degree <= st.maxMultiprog
      && forall p :: p in st.programs ==> st.programs[p].counter == |st.programs[p].ready| + |st.programs[p].wakeup|
  {
    RunInv(s, run);
    var st := After(s, run).st;
    forall p | p in st.programs ensures st.programs[p].counter == |st.programs[p].ready| + |st.programs[p].wakeup| {
      assert ProgramCounted(st.programs[p]);
    }
  }

  lemma {:induction false} ConstantsStay(s: Sys, run: seq<Action>)
    requires CanRun(s, run)
    ensures After(s, run).st.alpha == s.st.alpha && After(s, run).st.maxMultiprog == s.st.maxMultiprog
  {
    hide Guard, Safe, Apply;
    if run != [] {
      ConstantsStay(s, run[..|run| - 1]);
      ConstantsKept(After(s, run[..|run| - 1]), run[|run| - 1]);
    }
  }

  /** From the start on, the degree never exceeds the configured maximum, and the free slots are what is left of it; the
      estimates are weighted by the configured alpha. */
  lemma ConfiguredDegree(alpha: real, maxMultiprog: nat, config: map<string, SemConfig>, now: real, run: seq<Action>)
    requires ConfigOk(alpha, config) && now >= 0.0 && CanRun(Start(alpha, maxMultiprog, config, now), run)
    ensures var st := After(Start(alpha, maxMultiprog, config, now), run).st;
      && st.alpha == alpha && |ActiveThreads(st.tcbs)| <= maxMultiprog
      && st.available == maxMultiprog - |ActiveThreads(st.tcbs)|
  {
    var s := Start(alpha, maxMultiprog, config, now);
    hide Inv, Guard, Safe, Apply;
    StartInv(alpha, maxMultiprog, config, now);
    CountersAgree(s, run);
    ConstantsStay(s, run);
  }

  /** The stored estimate of a running thread is the average of all its bursts; the CPU total is their sum. */
  lemma EstimateHistory(s: Sys, run: seq<Action>, t: Id)
    requires Inv(s) && CanRun(s, run) && t in After(s, run).st.tcbs
    ensures var r := After(s, run); var tcb := r.st.tcbs[t];
      && t in r.st.log && WellFormed(r.st.log[t]) && Last(r.st.log[t]).state == tcb.state
      && var bursts := Bursts(r.st.log[t]);
      && tcb.time.totalExec == Sum(bursts)
      && (if tcb.state == EXEC || Picked(r, t) then tcb.time.lastEstimate else Estimate(r.st.alpha, tcb.time))
         == Average(r.st.alpha, bursts)
  {
    RunInv(s, run);
    var r := After(s, run);
    assert ThreadTimed(r, t);
    if !(r.st.tcbs[t].state == EXEC || Picked(r, t)) {
      EstimateIsAverage(r.st.alpha, r.st.tcbs[t].time, r.st.log[t]);
    }
  }

  /** Ready and CPU time of every thread are what it has spent READY and in EXEC, and with its idle time they always
      add up to its age. */
  lemma TimeAccounting(s: Sys, run: seq<Action>, t: Id)
    requires Inv(s) && CanRun(s, run) && t in After(s, run).st.tcbs
    ensures var r := After(s, run); var tcb := r.st.tcbs[t]; var b := tcb.time;
      var end := if tcb.state == EXIT then b.finished else r.clock;
      && t in r.st.log && |r.st.log[t]| > 0
      && ReadyTime(b, tcb.state, r.clock) == SpentBy(r.st.log[t], READY, r.clock)
      && ExecTime(b, tcb.state, r.clock) == SpentBy(r.st.log[t], EXEC, r.clock)
      && ReadyTime(b, tcb.state, r.clock) + ExecTime(b, tcb.state, r.clock) + IdleTime(r.st.log[t], r.clock)
         == end - b.created
      && b.totalReady + b.totalExec <= end - b.created
  {
    RunInv(s, run);
    var r := After(s, run);
    assert ThreadTimed(r, t);
    TimeIsConserved(r.st.alpha, r.st.tcbs[t].time, r.st.log[t], r.st.tcbs[t].state == EXEC || Picked(r, t), r.clock);
  }
}
