// What the rest of the system can do to a program between two of its own critical sections, and what follows for
// `wait_for_threads`.
module SuseProgress {
  import opened Lists
  import opened SuseTiming
  import opened SuseState
  import opened SuseInvariant
  import opened SuseSystem
  import opened SuseSafety
  import opened SusePlacement
  import opened SusePhases
  import opened SuseRuns

  /** The step is one of program p's own short-term scheduler. */
  predicate OwnStep(step: Step, p: int) {
    !step.LtFetch? && !step.LtCheck? && !step.LtMove? && step.p == p
  }

  /** Program p runs what it ran, and has at least the ready and woken threads it had, in the same order. */
  ghost predicate OnlyMore(before: Program, after: Program) {
    before.exec == after.exec && before.ready <= after.ready && before.wakeup <= after.wakeup
      && before.counter <= after.counter
  }

  lemma SignalAdds(s: Sys, a: Action, p: int)
    requires Safe(s, a) && a.step.Signals? && p in s.st.programs
    ensures p in Prepared(s, a).programs && OnlyMore(s.st.programs[p], Prepared(s, a).programs[p])
  {}

  lemma AdmitPrepares(s: Sys, a: Action, p: int)
    requires Safe(s, a) && a.step.LtMove? && p in s.st.programs
    ensures p in Prepared(s, a).programs && OnlyMore(s.st.programs[p], Prepared(s, a).programs[p])
  {}

  lemma ChoosePrograms(st: State, p: int, now: real)
    requires CanScan(st, p) && (ChosenPos(st, p, now) == -1 ==> Running(st, p))
    ensures Choose(st, p, now).programs == st.programs
  {
    hide ChosenPos, Switch, Estimate, Bound;
  }

  /** The bookkeeping of another's step only ever adds to p's wakeup list. */
  lemma OthersPrepare(s: Sys, a: Action, p: int)
    requires Safe(s, a) && (a.step.Connecting? ==> Guard(s, a)) && p in s.st.programs && !OwnStep(a.step, p)
    ensures p in Prepared(s, a).programs && OnlyMore(s.st.programs[p], Prepared(s, a).programs[p])
  {
    hide MoveSafe, Choose, Signal, ChosenPos;
    match a.step
    case Signals(_, _, _) => SignalAdds(s, a, p);
    case LtMove => AdmitPrepares(s, a, p);
    case Schedules(q) => ChoosePrograms(s.st, q, a.now);
    case WakeNext(q) =>
    case Connecting(q) =>
    case Waits(_, _, _) =>
    case _ => assert Prepared(s, a).programs == s.st.programs;
  }

  lemma AdmitAdds(st: State, t: Id, now: real)
    requires MoveSafe(st, t, READY) && Is(st, t, NEW)
    ensures var r := Move(st, t, READY, now);
      t.socket in r.programs && OnlyMore(st.programs[t.socket], r.programs[t.socket])
  {}

  /** Nobody else takes a thread from a program, or its processor. */
  lemma OthersOnlyAdd(s: Sys, a: Action, p: int)
    requires Inv(s) && Guard(s, a) && Safe(s, a) && p in s.st.programs && !OwnStep(a.step, p)
    ensures var r := Apply(s, a);
      && p in r.st.programs && OnlyMore(s.st.programs[p], r.st.programs[p])
      && p in s.pc && p in r.pc && r.pc[p] == s.pc[p]
  {
    hide Inv, Guard, Safe, Apply, Move, Moved, Prepared, MoveSafe;
    OthersPrepare(s, a, p);
    NormalForm(s, a);
    PcKept(s, a, p);
    if Moved(s, a).Some? {
      var b := Prepared(s, a);
      var m := Moved(s, a).value;
      MovesAway(s, a);
      MoveFrame(b, m.t, m.to, a.now);
      if a.step.LtMove? {
        LtMoves(s, a);
        if m.t.socket == p {
          AdmitAdds(b, m.t, a.now);
        }
      } else {
        MovesOwn(s, a);
      }
    }
  }

  lemma PcKept(s: Sys, a: Action, p: int)
    requires Inv(s) && Guard(s, a) && Safe(s, a) && p in s.st.programs && !OwnStep(a.step, p)
    ensures p in s.pc && p in Apply(s, a).pc && Apply(s, a).pc[p] == s.pc[p]
  {}

  lemma MovesOwn(s: Sys, a: Action)
    requires Inv(s) && Guard(s, a) && Safe(s, a) && Moved(s, a).Some? && !a.step.LtMove?
    ensures OwnStep(a.step, Moved(s, a).value.t.socket)
  {
    MovedActs(s, a);
  }

  lemma LtMoves(s: Sys, a: Action)
    requires Safe(s, a) && a.step.LtMove?
    ensures Moved(s, a) == Some(Target(s.lt.t, READY))
    ensures MoveSafe(Prepared(s, a), s.lt.t, READY) && Is(Prepared(s, a), s.lt.t, NEW)
  {}

  lemma WorkIff(s: Sys, p: int)
    requires Inv(s) && p in s.st.programs
    ensures p in s.pc
    ensures s.st.programs[p].counter > 0 <==> s.st.programs[p].ready != [] || s.st.programs[p].wakeup != []
  {
    assert ProgramCounted(s.st.programs[p]);
  }

  // ---- from the semaphore of wait_for_threads to the choice ----

  predicate WakeStep(step: Step) {
    step.WakeBegins? || step.WakeNext? || step.WakeEnds?
  }

  /** Between operations or inside `wakeup_threads`, with a thread ready or to be woken; after a round, one is ready. */
  ghost predicate HasWork(s: Sys, p: int) {
    && p in s.st.programs && p in s.pc && (s.pc[p].Idle? || s.pc[p].Waking?)
    && (s.st.programs[p].ready != [] || s.st.programs[p].wakeup != [])
    && (s.pc[p].Waking? && s.pc[p].i > 0 ==> s.st.programs[p].ready != [])
  }

  /** Some thread of the program was or became ready: it has been through its wakeup list, or that list was empty. */
  ghost predicate Looked(s: Sys, run: seq<Action>, p: int)
    requires CanRun(s, run)
  {
    || (run != [] && (Looked(s, run[..|run| - 1], p) || run[|run| - 1].step == WakeEnds(p)))
    || (p in After(s, run).st.programs && After(s, run).st.programs[p].wakeup == [])
  }

  lemma WakeRoundAdds(s: Sys, a: Action)
    requires Inv(s) && Guard(s, a) && Safe(s, a) && a.step.WakeNext?
    ensures var p := a.step.p; var r := Apply(s, a);
      && p in r.st.programs && p in r.pc && r.pc[p].Waking?
      && r.st.programs[p].exec == s.st.programs[p].exec
      && r.st.programs[p].ready != [] && s.st.programs[p].ready <= r.st.programs[p].ready
  {
    hide Inv;
  }

  lemma OwnWakeStep(s: Sys, a: Action, p: int)
    requires Inv(s) && Guard(s, a) && Safe(s, a) && HasWork(s, p) && WakeStep(a.step) && a.step.p == p
    ensures var r := Apply(s, a);
      && HasWork(r, p) && r.st.programs[p].exec == s.st.programs[p].exec
         && s.st.programs[p].ready <= r.st.programs[p].ready
      && (a.step.WakeEnds? ==> r.st.programs[p].ready != [])
  {
    hide Inv;
    if a.step.WakeNext? {
      WakeRoundAdds(s, a);
    }
  }

  lemma OthersKeepWork(s: Sys, a: Action, p: int)
    requires Inv(s) && Guard(s, a) && Safe(s, a) && HasWork(s, p) && !OwnStep(a.step, p)
    ensures var r := Apply(s, a);
      HasWork(r, p) && r.st.programs[p].exec == s.st.programs[p].exec
        && s.st.programs[p].ready <= r.st.programs[p].ready
  {
    hide Inv, Guard, Safe, Apply;
    OthersOnlyAdd(s, a, p);
  }

  /** Once the semaphore has let the program past, its own `wakeup_threads`, interleaved with anything the others do,
      leaves it with a ready thread. */
  lemma {:induction false} WokenIsReady(s: Sys, run: seq<Action>, p: int)
    requires Inv(s) && CanRun(s, run) && AtPc(s, p, Idle) && p in s.st.programs && s.st.programs[p].counter > 0
    requires forall i :: 0 <= i < |run| && OwnStep(run[i].step, p) ==> WakeStep(run[i].step)
    ensures HasWork(After(s, run), p) && After(s, run).st.programs[p].exec == s.st.programs[p].exec
    ensures Looked(s, run, p) ==> After(s, run).st.programs[p].ready != []
  {
    hide Inv, Guard, Safe, Apply;
    if run == [] {
      WorkIff(s, p);
    } else {
      var n := |run| - 1;
      WokenIsReady(s, run[..n], p);
      RunInv(s, run[..n]);
      if OwnStep(run[n].step, p) {
        OwnWakeStep(After(s, run[..n]), run[n], p);
      } else {
        OthersKeepWork(After(s, run[..n]), run[n], p);
      }
    }
  }

  /** So `schedule_next_for` never waits twice: back at its start it finds a ready thread, and can choose. */
  lemma NoSecondWait(s: Sys, run: seq<Action>, p: int, now: real)
    requires Inv(s) && CanRun(s, run) && AtPc(s, p, Idle) && p in s.st.programs && s.st.programs[p].counter > 0
    requires forall i :: 0 <= i < |run| && OwnStep(run[i].step, p) ==> WakeStep(run[i].step)
    requires Looked(s, run, p) && AtPc(After(s, run), p, Idle) && After(s, run).clock <= now < FLT_MAX
    ensures p in After(s, run).st.programs && After(s, run).st.programs[p].ready != []
    ensures Guard(After(s, run), Action(Schedules(p), now)) && CanRun(s, run + [Action(Schedules(p), now)])
  {
    hide Inv, Safe, Apply, Looked;
    WokenIsReady(s, run, p);
    NoStepGoesWrong(s, run, Action(Schedules(p), now));
  }

  // ---- from the choice to the reply ----

  predicate SwitchStep(step: Step) {
    step.Preempts? || step.Resumes?
  }

  /** The thread that `schedule_next_for` settles on. */
  ghost function Chosen(st: State, p: int, now: real): Id
    requires CanScan(st, p) && (ChosenPos(st, p, now) == -1 ==> Running(st, p))
  {
    var pos := ChosenPos(st, p, now);
    if pos == -1 then Exec(st, p) else st.programs[p].ready[pos]
  }

  /** The program is switching to `t`, or has. */
  ghost predicate HeadingFor(s: Sys, p: int, t: Id) {
    && p in s.st.programs && p in s.pc
    && (s.pc[p] == Preempting(t) || s.pc[p] == Resuming(t) || (s.pc[p].Idle? && s.st.programs[p].exec == Some(t)))
  }

  lemma ChoiceHeads(s: Sys, p: int, now: real)
    requires Safe(s, Action(Schedules(p), now))
    ensures CanScan(s.st, p) && (ChosenPos(s.st, p, now) == -1 ==> Running(s.st, p))
    ensures HeadingFor(Apply(s, Action(Schedules(p), now)), p, Chosen(s.st, p, now))
  {
    hide ChosenPos, Switch, Estimate, Bound;
  }

  lemma OwnSwitchHeads(s: Sys, a: Action, p: int, t: Id)
    requires Inv(s) && Guard(s, a) && Safe(s, a) && HeadingFor(s, p, t) && SwitchStep(a.step) && a.step.p == p
    ensures HeadingFor(Apply(s, a), p, t)
  {
    if a.step.Resumes? {
      assert PhaseOk(s.st, s.pc[p], p);
      MoveFrame(s.st, t, EXEC, a.now);
    } else {
      ExecIs(s.st, p);
      MoveFrame(s.st, Exec(s.st, p), READY, a.now);
    }
  }

  /** Whatever the others do in between, the two moves of `change_exec_tcb` end with the chosen thread running. */
  lemma {:induction false} SwitchArrives(s: Sys, run: seq<Action>, p: int, t: Id)
    requires Inv(s) && CanRun(s, run) && HeadingFor(s, p, t)
    requires forall i :: 0 <= i < |run| && OwnStep(run[i].step, p) ==> SwitchStep(run[i].step)
    ensures HeadingFor(After(s, run), p, t)
  {
    hide Inv, Guard, Safe, Apply;
    if run != [] {
      var n := |run| - 1;
      SwitchArrives(s, run[..n], p, t);
      RunInv(s, run[..n]);
      if OwnStep(run[n].step, p) {
        OwnSwitchHeads(After(s, run[..n]), run[n], p, t);
      } else {
        OthersOnlyAdd(After(s, run[..n]), run[n], p);
      }
    }
  }

  /** The move of `change_exec_tcb` that is next. */
  function NextMove(s: Sys, p: int): Step
    requires p in s.pc
  {
    if s.pc[p].Preempting? then Preempts(p) else Resumes(p)
  }

  /** Until it arrives, whatever the others have done, the program's next move can be made at once, is defined and
      brings the switch on: to the second move, or to the chosen thread running. */
  lemma SwitchGoesOn(s: Sys, run: seq<Action>, p: int, t: Id, now: real)
    requires Inv(s) && CanRun(s, run) && HeadingFor(s, p, t)
    requires forall i :: 0 <= i < |run| && OwnStep(run[i].step, p) ==> SwitchStep(run[i].step)
    requires p in After(s, run).pc && !After(s, run).pc[p].Idle? && After(s, run).clock <= now < FLT_MAX
    ensures var a := Action(NextMove(After(s, run), p), now);
      && Guard(After(s, run), a) && Safe(After(s, run), a) && CanRun(s, run + [a])
      && p in After(s, run + [a]).pc && HeadingFor(After(s, run + [a]), p, t)
      && After(s, run + [a]).pc[p] == (if After(s, run).pc[p].Preempting? then Resuming(t) else Idle)
  {
    hide Inv, Safe, Apply;
    SwitchArrives(s, run, p, t);
    var r, a := After(s, run), Action(NextMove(After(s, run), p), now);
    NoStepGoesWrong(s, run, a);
    RunInv(s, run);
    OwnSwitchHeads(r, a, p, t);
    SwitchTurns(r, a, p);
  }

  lemma SwitchTurns(s: Sys, a: Action, p: int)
    requires Safe(s, a) && p in s.pc && (s.pc[p].Preempting? || s.pc[p].Resuming?) && a.step == NextMove(s, p)
    ensures p in Apply(s, a).pc
    ensures Apply(s, a).pc[p] == if s.pc[p].Preempting? then Resuming(s.pc[p].next) else Idle
  {}

  // ---- what interleaving leaves of the ready and running threads ----

  /** `t` is ready or running in program p. */
  ghost predicate InPlay(st: State, p: int, t: Id) {
    p in st.programs && (t in st.programs[p].ready || st.programs[p].exec == Some(t))
  }

  predicate NotYetAdmitted(st: State, t: Id) {
    t !in st.tcbs || st.tcbs[t].state == NEW
  }

  lemma InPlayIs(st: State, p: int, t: Id)
    requires Placed(st) && p in st.programs
    ensures InPlay(st, p, t) <==> t.socket == p && InPlayState(st, t)
  {
    Contents(st);
  }

  predicate InPlayState(st: State, t: Id) {
    Is(st, t, READY) || Is(st, t, EXEC)
  }

  /** What one step does to a thread of p, when p itself at most switches. */
  lemma StateInPlay(s: Sys, a: Action, p: int, t: Id)
    requires Inv(s) && Guard(s, a) && Safe(s, a) && t.socket == p
    requires OwnStep(a.step, p) ==> SwitchStep(a.step) || a.step.Schedules?
    ensures var r := Apply(s, a).st;
      && (InPlayState(s.st, t) ==> InPlayState(r, t))
      && (InPlayState(r, t) ==> InPlayState(s.st, t) || NotYetAdmitted(s.st, t))
      && (NotYetAdmitted(r, t) ==> NotYetAdmitted(s.st, t))
  {
    hide Inv, Guard, Safe, Apply, Moved, Acts, OwnStep;
    if t in s.st.tcbs {
      LifeCycle(s, a, t);
      PlacedOf(s);
      MovesMine(s, a);
      if Moved(s, a).Some? && Moved(s, a).value.t == t {
        OwnMoves(s, a, p);
      }
    }
  }

  lemma MovesMine(s: Sys, a: Action)
    requires Inv(s) && Guard(s, a) && Safe(s, a)
    ensures Moved(s, a).Some? ==> Acts(s, a, Moved(s, a).value.t.socket)
  {
    MovedActs(s, a);
  }

  lemma OwnMoves(s: Sys, a: Action, p: int)
    requires Placed(s.st) && Safe(s, a) && Moved(s, a).Some? && Acts(s, a, p)
    requires OwnStep(a.step, p) ==> SwitchStep(a.step) || a.step.Schedules?
    ensures var m := Moved(s, a).value;
      && m.to in {READY, EXEC} && m.t in s.st.tcbs && s.st.tcbs[m.t].state in {NEW, READY, EXEC}
  {
    if a.step.Preempts? {
      ExecIs(s.st, p);
    }
  }

  lemma StepInPlay(s: Sys, a: Action, p: int, t: Id)
    requires Inv(s) && Guard(s, a) && Safe(s, a) && p in s.st.programs
    requires OwnStep(a.step, p) ==> SwitchStep(a.step) || a.step.Schedules?
    ensures p in Apply(s, a).st.programs && (InPlay(Apply(s, a).st, p, t) ==> t.socket == p)
    ensures InPlay(s.st, p, t) ==> InPlay(Apply(s, a).st, p, t)
    ensures InPlay(Apply(s, a).st, p, t) && !InPlay(s.st, p, t) ==> NotYetAdmitted(s.st, t)
    ensures NotYetAdmitted(Apply(s, a).st, t) && t.socket == p ==> NotYetAdmitted(s.st, t)
  {
    hide Inv, Guard, Safe, Apply, NotYetAdmitted, InPlay;
    StaysConnected(s, a, p);
    InvKept(s, a);
    PlacedOf(s);
    PlacedOf(Apply(s, a));
    InPlayIs(s.st, p, t);
    InPlayIs(Apply(s, a).st, p, t);
    if t.socket == p {
      StateInPlay(s, a, p, t);
    }
  }

  lemma PlacedOf(s: Sys)
    requires Inv(s)
    ensures Placed(s.st)
  {}

  lemma StaysConnected(s: Sys, a: Action, p: int)
    requires Safe(s, a) && (a.step.Connecting? ==> Guard(s, a)) && p in s.st.programs
    ensures p in Apply(s, a).st.programs
  {
    if !a.step.Connecting? {
      hide Safe, Apply;
      StepPrograms(s, a);
    }
  }

  /** While a program at most switches, no thread of its ready list and exec slot is lost; any thread added is one that
      the long-term scheduler admitted. */
  lemma {:induction false} PlayConserved(s: Sys, run: seq<Action>, p: int, t: Id)
    requires Inv(s) && CanRun(s, run) && p in s.st.programs
    requires forall i :: 0 <= i < |run| && OwnStep(run[i].step, p) ==> SwitchStep(run[i].step) || run[i].step.Schedules?
    ensures p in After(s, run).st.programs
    ensures InPlay(s.st, p, t) ==> InPlay(After(s, run).st, p, t)
    ensures InPlay(After(s, run).st, p, t) && !InPlay(s.st, p, t) ==> NotYetAdmitted(s.st, t)
    ensures NotYetAdmitted(After(s, run).st, t) && t.socket == p ==> NotYetAdmitted(s.st, t)
  {
    hide Inv, Guard, Safe, Apply, NotYetAdmitted, InPlay;
    if run != [] {
      var n := |run| - 1;
      PlayConserved(s, run[..n], p, t);
      RunInv(s, run[..n]);
      StepInPlay(After(s, run[..n]), run[n], p, t);
    }
  }
  // ---- a whole SUSE_SCHEDULE_NEXT ----

  lemma {:induction false} RunSplit(s: Sys, a: seq<Action>, b: seq<Action>)
    requires CanRun(s, a + b)
    ensures CanRun(s, a) && CanRun(After(s, a), b) && After(s, a + b) == After(After(s, a), b)
    decreases |b|
  {
    if b == [] {
      assert a + b == a;
    } else {
      var n := |b| - 1;
      assert (a + b)[..|a + b| - 1] == a + b[..n] && (a + b)[|a + b| - 1] == b[n];
      RunSplit(s, a, b[..n]);
    }
  }

  lemma RunOne(s: Sys, a: Action)
    requires CanRun(s, [a])
    ensures Guard(s, a) && Safe(s, a) && After(s, [a]) == Apply(s, a)
  {
    hide Guard, Safe, Apply;
    assert [a][..0] == [];
  }

  /** From the choice to the reply, interleaved with anything the others do: once the program is idle again, the thread
      it runs and replies with is the one SJF chose; no ready or running thread is lost, and those added were admitted
      meanwhile. */
  lemma ChoiceToReply(s: Sys, now: real, switch: seq<Action>, p: int, t: Id)
    requires Inv(s) && CanRun(s, [Action(Schedules(p), now)] + switch)
    requires forall i :: 0 <= i < |switch| && OwnStep(switch[i].step, p) ==> SwitchStep(switch[i].step)
    ensures CanScan(s.st, p) && (ChosenPos(s.st, p, now) == -1 ==> Running(s.st, p))
    ensures var r := After(s, [Action(Schedules(p), now)] + switch);
      && HeadingFor(r, p, Chosen(s.st, p, now))
      && (r.pc[p].Idle? ==> r.st.programs[p].exec == Some(Chosen(s.st, p, now)))
      && (InPlay(s.st, p, t) ==> InPlay(r.st, p, t))
      && (InPlay(r.st, p, t) && !InPlay(s.st, p, t) ==> NotYetAdmitted(s.st, t))
  {
    hide Inv, Guard, Safe, Apply, InPlay, NotYetAdmitted, Chosen, ChosenPos, CanScan, CanRun, After, HeadingFor;
    var a := Action(Schedules(p), now);
    var run := [a] + switch;
    RunSplit(s, [a], switch);
    RunOne(s, a);
    ChoiceHeads(s, p, now);
    RunInv(s, [a]);
    SwitchArrives(Apply(s, a), switch, p, Chosen(s.st, p, now));
    GuardConnected(s, a);
    assert forall i :: 0 <= i < |run| && OwnStep(run[i].step, p) ==> SwitchStep(run[i].step) || run[i].step.Schedules?;
    PlayConserved(s, run, p, t);
    SettledRuns(After(s, run), p, Chosen(s.st, p, now));
  }

  lemma GuardConnected(s: Sys, a: Action)
    requires Guard(s, a) && a.step.Schedules?
    ensures a.step.p in s.st.programs
  {}

  lemma SettledRuns(s: Sys, p: int, t: Id)
    requires HeadingFor(s, p, t)
    ensures p in s.pc && p in s.st.programs && (s.pc[p].Idle? ==> s.st.programs[p].exec == Some(t))
  {}

  /** From the semaphore of `wait_for_threads` to the reply, interleaved with anything the others do: `wake` holds the
      program's own `wakeup_threads`, then it chooses, and `switch` holds the moves of `change_exec_tcb`. It finds a
      ready thread to choose from, and once idle again it runs the one SJF chose. */
  lemma WaitToReply(s: Sys, wake: seq<Action>, now: real, switch: seq<Action>, p: int, t: Id)
    requires Inv(s) && AtPc(s, p, Idle) && p in s.st.programs && s.st.programs[p].counter > 0
    requires CanRun(s, wake) && Looked(s, wake, p) && CanRun(s, wake + ([Action(Schedules(p), now)] + switch))
    requires forall i :: 0 <= i < |wake| && OwnStep(wake[i].step, p) ==> WakeStep(wake[i].step)
    requires forall i :: 0 <= i < |switch| && OwnStep(switch[i].step, p) ==> SwitchStep(switch[i].step)
    ensures var at := After(s, wake);
      && p in at.st.programs && at.st.programs[p].ready != []
      && CanScan(at.st, p) && (ChosenPos(at.st, p, now) == -1 ==> Running(at.st, p))
    ensures var at := After(s, wake); var r := After(s, wake + ([Action(Schedules(p), now)] + switch));
      && HeadingFor(r, p, Chosen(at.st, p, now))
      && (r.pc[p].Idle? ==> r.st.programs[p].exec == Some(Chosen(at.st, p, now)))
      && (InPlay(at.st, p, t) ==> InPlay(r.st, p, t))
      && (InPlay(r.st, p, t) && !InPlay(at.st, p, t) ==> NotYetAdmitted(at.st, t))
  {
    hide Inv, Guard, Safe, Apply, InPlay, NotYetAdmitted, Chosen, ChosenPos, CanScan, Looked, HeadingFor, CanRun, After;
    RunSplit(s, wake, [Action(Schedules(p), now)] + switch);
    RunInv(s, wake);
    WokenIsReady(s, wake, p);
    ChoiceToReply(After(s, wake), now, switch, p, t);
  }

  // ---- the choice in terms of the burst history ----

  /** Every thread the choice looks at has a log. */
  ghost predicate Logged(st: State, p: int) {
    && p in st.programs && (forall i :: 0 <= i < |st.programs[p].ready| ==> st.programs[p].ready[i] in st.log)
    && (Running(st, p) ==> Exec(st, p) in st.log && |st.log[Exec(st, p)]| > 0)
  }

  /** The exponential average of all completed bursts of the `i`-th ready thread. */
  ghost function HistoryOf(st: State, p: int, i: nat): real
    requires Logged(st, p) && i < |st.programs[p].ready|
  {
    Average(st.alpha, Bursts(st.log[st.programs[p].ready[i]]))
  }

  /** The average of all bursts of the running thread, the current one included; FLT_MAX when none runs. */
  ghost function HistoryToBeat(st: State, p: int, now: real): real
    requires Logged(st, p)
  {
    if Running(st, p) then
      var log := st.log[Exec(st, p)];
      Average(st.alpha, Bursts(log) + [now - Last(log).at])
    else FLT_MAX
  }

  lemma ReadyHistory(s: Sys, p: int, i: nat)
    requires Inv(s) && AtPc(s, p, Idle) && p in s.st.programs && i < |s.st.programs[p].ready|
    ensures var t := s.st.programs[p].ready[i];
      && Known(s.st, t) && t in s.st.log
      && Estimate(s.st.alpha, s.st.tcbs[t].time) == Average(s.st.alpha, Bursts(s.st.log[t]))
  {
    hide Inv, Placed, Accounts, Estimate, Average, Bursts;
    var t := s.st.programs[p].ready[i];
    PlacedOf(s);
    ReadyAt(s.st, p, i);
    TimedOf(s, t);
    EstimateIsAverage(s.st.alpha, s.st.tcbs[t].time, s.st.log[t]);
    KnownHere(s.st, t, p);
  }

  lemma TimedOf(s: Sys, t: Id)
    requires Inv(s) && t in s.st.tcbs
    ensures ThreadTimed(s, t)
  {}

  lemma KnownHere(st: State, t: Id, p: int)
    requires t in st.tcbs && t in st.log && t.socket == p && p in st.programs
    ensures Known(st, t)
  {}

  lemma RunningHistory(s: Sys, p: int, now: real)
    requires Inv(s) && Running(s.st, p)
    ensures var t := Exec(s.st, p);
      && Known(s.st, t) && t in s.st.log && |s.st.log[t]| > 0
      && Bound(s.st, p, now) == Average(s.st.alpha, Bursts(s.st.log[t]) + [now - Last(s.st.log[t]).at])
  {
    hide Inv, Placed, Average, Bursts, Spent, Sum;
    var t := Exec(s.st, p);
    PlacedOf(s);
    ExecIs(s.st, p);
    TimedOf(s, t);
    KnownHere(s.st, t, p);
    AppendBurst(s.st.alpha, Bursts(s.st.log[t]), now - Last(s.st.log[t]).at);
  }

  lemma ChoiceIsLogged(s: Sys, p: int, now: real)
    requires Inv(s) && AtPc(s, p, Idle) && p in s.st.programs
    ensures Logged(s.st, p) && CanScan(s.st, p) && Bound(s.st, p, now) == HistoryToBeat(s.st, p, now)
    ensures forall i: nat :: i < |s.st.programs[p].ready| ==>
      Estimates(s.st, s.st.programs[p].ready)[i] == HistoryOf(s.st, p, i)
  {
    hide Inv, Estimate, Bound, Average, Bursts;
    if Running(s.st, p) {
      RunningHistory(s, p, now);
    } else {
      NothingToBeat(s.st, p, now);
    }
    forall i: nat | i < |s.st.programs[p].ready|
      ensures var t := s.st.programs[p].ready[i];
        && Known(s.st, t) && t in s.st.log
        && Estimate(s.st.alpha, s.st.tcbs[t].time) == Average(s.st.alpha, Bursts(s.st.log[t]))
    {
      ReadyHistory(s, p, i);
    }
  }

  lemma NothingToBeat(st: State, p: int, now: real)
    requires p in st.programs && !Running(st, p)
    ensures Bound(st, p, now) == FLT_MAX
  {}

  /** After any run, the choice is the first ready thread whose exponential average over its whole logged history of
      bursts is least; it displaces the running thread exactly when it is strictly below that thread's average with the
      current burst included. */
  lemma ChoiceByHistory(s: Sys, run: seq<Action>, p: int, now: real)
    requires Inv(s) && CanRun(s, run) && Guard(After(s, run), Action(Schedules(p), now))
    ensures Logged(After(s, run).st, p) && CanScan(After(s, run).st, p)
    ensures var st := After(s, run).st;
      var n := |st.programs[p].ready|;
      var pos := ChosenPos(st, p, now);
      var beat := HistoryToBeat(st, p, now);
      && (pos == -1 <==> forall i: nat :: i < n ==> beat <= HistoryOf(st, p, i))
      && (pos != -1 ==>
          && HistoryOf(st, p, pos) < beat
          && (forall i: nat :: i < n ==> HistoryOf(st, p, pos) <= HistoryOf(st, p, i))
          && forall i: nat :: i < pos ==> HistoryOf(st, p, pos) < HistoryOf(st, p, i))
  {
    hide Inv, Bound, HistoryOf, HistoryToBeat, Estimates, BestPos, Logged;
    RunInv(s, run);
    var r := After(s, run);
    GuardIdle(r, p, now);
    ChoiceIsLogged(r, p, now);
    BestPosIsFirstLeast(Estimates(r.st, r.st.programs[p].ready), Bound(r.st, p, now));
    ChosenIsBest(r.st, p, now);
  }

  lemma GuardIdle(s: Sys, p: int, now: real)
    requires Guard(s, Action(Schedules(p), now))
    ensures AtPc(s, p, Idle) && p in s.st.programs
  {}

  lemma ChosenIsBest(st: State, p: int, now: real)
    requires CanScan(st, p)
    ensures |Estimates(st, st.programs[p].ready)| == |st.programs[p].ready|
    ensures ChosenPos(st, p, now) == BestPos(Estimates(st, st.programs[p].ready), Bound(st, p, now))
  {}

  /** After any run the estimate of a thread lies between 0 and its largest burst. */
  lemma EstimateRange(s: Sys, run: seq<Action>, t: Id, largest: real)
    requires Inv(s) && CanRun(s, run) && t in After(s, run).st.tcbs && t in After(s, run).st.log && 0.0 <= largest
    requires forall i :: 0 <= i < |Bursts(After(s, run).st.log[t])| ==> Bursts(After(s, run).st.log[t])[i] <= largest
    ensures var r := After(s, run); var tcb := r.st.tcbs[t];
      var estimate :=
        if tcb.state == EXEC || Picked(r, t) then tcb.time.lastEstimate else Estimate(r.st.alpha, tcb.time);
      0.0 <= estimate <= largest
  {
    RunInv(s, run);
    EstimateHistory(s, run, t);
    BurstsNonNegative(After(s, run).st.log[t]);
    AverageBounded(After(s, run).st.alpha, Bursts(After(s, run).st.log[t]), largest);
  }
}
