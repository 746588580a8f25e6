// The loops of `wakeup_threads` and `unjoin_exec` over runs: what each has done after any number of its own rounds,
// interleaved with anything the others do.
module SuseLoops {
  import opened Lists
  import opened SuseTiming
  import opened SuseState
  import opened SuseHalves
  import opened SuseInvariant
  import opened SuseSystem
  import opened SuseSteps
  import opened SuseSafety
  import opened SusePlacement
  import opened SuseRuns
  import opened SuseProgress

  // ---- what nobody else touches ----

  /** While a program goes through its wakeup list, which it does holding its mutex, nobody adds to that list. */
  lemma WakeupListHeld(s: Sys, a: Action, p: int)
    requires Inv(s) && Guard(s, a) && Safe(s, a) && !OwnStep(a.step, p)
    requires p in s.st.programs && p in s.pc && s.pc[p].Waking?
    ensures p in Apply(s, a).st.programs && Apply(s, a).st.programs[p].wakeup == s.st.programs[p].wakeup
  {
    hide Inv, Guard, Safe, Apply, Moved, Prepared, Move, MoveSafe, Switch, OwnStep;
    PreparedListHeld(s, a, p);
    NormalForm(s, a);
    if Moved(s, a).Some? {
      MovesAway(s, a);
      MoveFrame(Prepared(s, a), Moved(s, a).value.t, Moved(s, a).value.to, a.now);
    }
  }

  lemma PreparedListHeld(s: Sys, a: Action, p: int)
    requires Guard(s, a) && Safe(s, a) && !OwnStep(a.step, p)
    requires p in s.st.programs && p in s.pc && s.pc[p].Waking?
    ensures p in Prepared(s, a).programs && Prepared(s, a).programs[p].wakeup == s.st.programs[p].wakeup
  {
    hide MoveSafe, Choose, ChosenPos;
    match a.step
    case Schedules(q) => ChoosePrograms(s.st, q, a.now);
    case _ =>
  }

  /** Only a program's own joins add to the joined lists of its threads. */
  lemma JoinedKept(s: Sys, a: Action, t: Id)
    requires Guard(s, a) && Safe(s, a) && t in s.st.tcbs && !(a.step.Joins? && a.step.p == t.socket)
    ensures t in Apply(s, a).st.tcbs && Apply(s, a).st.tcbs[t].joined == s.st.tcbs[t].joined
  {
    hide Guard, Safe, Apply, Moved, Prepared, Move, MoveSafe, Switch;
    PreparedJoined(s, a, t);
    NormalForm(s, a);
    if Moved(s, a).Some? {
      MovesAway(s, a);
      MoveFrame(Prepared(s, a), Moved(s, a).value.t, Moved(s, a).value.to, a.now);
    }
  }

  lemma PreparedJoined(s: Sys, a: Action, t: Id)
    requires Guard(s, a) && Safe(s, a) && t in s.st.tcbs && !(a.step.Joins? && a.step.p == t.socket)
    ensures t in Prepared(s, a).tcbs && Prepared(s, a).tcbs[t].joined == s.st.tcbs[t].joined
  {
    hide MoveSafe, Switch, ChosenPos, Choose, Move, Signal;
    match a.step
    case Schedules(q) => ChooseJoined(s.st, q, a.now);
    case Joins(_, _) =>
    case Creating(_, _) =>
    case Signals(q, tid, name) => SignalThreads(s.st, q, tid, name);
    case _ => assert Prepared(s, a).tcbs == s.st.tcbs;
  }

  lemma SignalThreads(st: State, p: int, tid: int, name: string)
    requires Running(st, p) && name in st.sems && SignalDefined(st, p, tid, name)
    ensures Signal(st, p, tid, name).tcbs == st.tcbs
  {}

  lemma ChooseJoined(st: State, p: int, now: real)
    requires CanScan(st, p) && (ChosenPos(st, p, now) == -1 ==> Running(st, p))
    ensures forall t :: t in st.tcbs ==>
      t in Choose(st, p, now).tcbs && Choose(st, p, now).tcbs[t].joined == st.tcbs[t].joined
  {
    hide ChosenPos, Switch, Estimate, Bound;
  }

  // ---- wakeup_threads ----

  /** `i` rounds into the list `w`, with the ready list `ready` at the start: the odd positions passed and the tail are
      still listed, and the even positions passed are ready, in order, behind what was ready. */
  ghost predicate WokenSoFar(s: Sys, p: int, w: seq<Id>, ready: seq<Id>) {
    && p in s.st.programs && p in s.pc && s.pc[p].Waking?
    && var i := s.pc[p].i;
    && WakeProgress(w, i, s.st.programs[p].wakeup) && i <= |Evens(w)|
    && Subsequence(ready + Evens(w)[..i], s.st.programs[p].ready)
  }

  lemma RoundMoves(s: Sys, a: Action, p: int)
    requires Inv(s) && Guard(s, a) && Safe(s, a) && a.step == WakeNext(p)
    ensures var r := Apply(s, a); var i := s.pc[p].i; var w := s.st.programs[p].wakeup;
      && p in r.st.programs && p in r.pc && r.pc[p] == Waking(i + 1) && i < |w|
      && r.st.programs[p].wakeup == w[..i] + w[i + 1..]
      && r.st.programs[p].ready == s.st.programs[p].ready + [w[i]]
  {
    hide Inv;
  }

  lemma WokenStep(s: Sys, a: Action, p: int, w: seq<Id>, ready: seq<Id>)
    requires Inv(s) && Guard(s, a) && Safe(s, a) && WokenSoFar(s, p, w, ready) && a.step == WakeNext(p)
    ensures WokenSoFar(Apply(s, a), p, w, ready)
  {
    hide Inv, Guard, Safe, Apply, WakeProgress, Evens, Subsequence;
    RoundMoves(s, a, p);
    var i := s.pc[p].i;
    var now := s.st.programs[p].wakeup;
    WakeProgressStep(w, i, now, ready);
    SubsequenceBoth(ready + Evens(w)[..i], s.st.programs[p].ready, now[i]);
  }

  /** The loop of `wakeup_threads`, interleaved with anything the others do. */
  lemma {:induction false} WakeLoopRuns(s: Sys, run: seq<Action>, p: int)
    requires Inv(s) && CanRun(s, run) && AtPc(s, p, Waking(0)) && p in s.st.programs
    requires forall i :: 0 <= i < |run| && OwnStep(run[i].step, p) ==> run[i].step == WakeNext(p)
    ensures WokenSoFar(After(s, run), p, s.st.programs[p].wakeup, s.st.programs[p].ready)
  {
    hide Inv, Guard, Safe, Apply, WakeProgress, Subsequence;
    var w, ready := s.st.programs[p].wakeup, s.st.programs[p].ready;
    if run == [] {
      LoopBegins(w, ready);
    } else {
      var n := |run| - 1;
      var before := After(s, run[..n]);
      WakeLoopRuns(s, run[..n], p);
      RunInv(s, run[..n]);
      if OwnStep(run[n].step, p) {
        WokenStep(before, run[n], p, w, ready);
      } else {
        OthersOnlyAdd(before, run[n], p);
        WakeupListHeld(before, run[n], p);
        SubsequenceLonger(ready + Evens(w)[..before.pc[p].i], before.st.programs[p].ready,
          After(s, run).st.programs[p].ready);
      }
    }
  }

  lemma LoopBegins(w: seq<Id>, ready: seq<Id>)
    ensures WakeProgress(w, 0, w) && Subsequence(ready + Evens(w)[..0], ready)
  {
    assert ready + Evens(w)[..0] == ready;
    SubsequenceSelf(ready);
  }

  /** When the loop ends, whatever the others did meanwhile, the threads at even positions are ready, in order and
      behind those that were, and the list holds exactly the others, in order. */
  lemma WakeLoopEnds(s: Sys, run: seq<Action>, p: int, now: real)
    requires Inv(s) && CanRun(s, run) && AtPc(s, p, Waking(0)) && p in s.st.programs
    requires forall i :: 0 <= i < |run| && OwnStep(run[i].step, p) ==> run[i].step == WakeNext(p)
    requires Guard(After(s, run), Action(WakeEnds(p), now))
    ensures CanRun(s, run + [Action(WakeEnds(p), now)])
    ensures var w := s.st.programs[p].wakeup; var r := After(s, run + [Action(WakeEnds(p), now)]);
      && AtPc(r, p, Idle) && p in r.st.programs && r.st.programs[p].wakeup == Odds(w)
      && Subsequence(s.st.programs[p].ready + Evens(w), r.st.programs[p].ready)
  {
    hide Inv, Safe, Subsequence, Evens, Odds, WakeProgress;
    var w, ready := s.st.programs[p].wakeup, s.st.programs[p].ready;
    WakeLoopRuns(s, run, p);
    var r := After(s, run);
    var i := r.pc[p].i;
    NoStepGoesWrong(s, run, Action(WakeEnds(p), now));
    WakeProgressDone(w, i, r.st.programs[p].wakeup);
  }

  // ---- unjoin_exec ----

  /** `u` is closing, and of its joined list `joined` the threads released so far are ready, in joining order and behind
      what was ready; the rest are still owed a wakeup by `u`. */
  ghost predicate ReleasedSoFar(s: Sys, p: int, u: Id, joined: seq<Id>, ready: seq<Id>) {
    && p in s.st.programs && p in s.pc && s.pc[p].Closing?
    && s.st.programs[p].exec == Some(u) && u in s.st.tcbs && s.st.tcbs[u].joined == joined
    && var k := s.pc[p].k;
    && k <= |joined| && Subsequence(ready + joined[..k], s.st.programs[p].ready)
    && Queue(s, OnJoin(u)) == joined[k..]
  }

  lemma InvParts(s: Sys)
    requires Inv(s)
    ensures Placed(s.st) && Counted(s.st) && OneWaker(s)
  {}

  lemma UnjoinTarget(s: Sys, p: int)
    requires Inv(s) && Running(s.st, p) && Exec(s.st, p) in s.st.tcbs && p in s.pc && s.pc[p].Closing?
    requires s.pc[p].k < |s.st.tcbs[Exec(s.st, p)].joined|
    ensures var t := s.st.tcbs[Exec(s.st, p)].joined[s.pc[p].k];
      Exec(s.st, p).socket == p && t.socket == p && Is(s.st, t, BLOCKED) && Known(s.st, t) && t != Exec(s.st, p)
  {
    hide Inv, Placed, Counted, OneWaker;
    InvParts(s);
    ExecIs(s.st, p);
    UnjoinSafe(s, p, s.pc[p].k);
  }

  /** One round of `unjoin_exec`. */
  ghost predicate UnjoinedOne(s: Sys, p: int, u: Id, r: Sys)
    requires Running(s.st, p) && u in s.st.tcbs && p in s.pc && s.pc[p].Closing? && s.pc[p].k < |s.st.tcbs[u].joined|
  {
    && u.socket == p && p in r.st.programs && p in r.pc && r.pc[p] == Closing(s.pc[p].k + 1)
    && r.st.programs[p].exec == Some(u) && u in r.st.tcbs
    && r.st.programs[p].ready == s.st.programs[p].ready + [s.st.tcbs[u].joined[s.pc[p].k]]
  }

  lemma UnjoinMoves(s: Sys, a: Action, p: int)
    requires Inv(s) && Guard(s, a) && Safe(s, a) && a.step == Unjoins(p)
    ensures Running(s.st, p) && Exec(s.st, p) in s.st.tcbs && p in s.pc && s.pc[p].Closing?
    ensures s.pc[p].k < |s.st.tcbs[Exec(s.st, p)].joined| && UnjoinedOne(s, p, Exec(s.st, p), Apply(s, a))
  {
    hide Inv, Guard, Safe, Apply, Move, Switch;
    UnjoinIs(s, a, p);
    UnjoinTarget(s, p);
    var t := s.st.tcbs[Exec(s.st, p)].joined[s.pc[p].k];
    MoveToReady(s.st, t, a.now);
    MoveFrame(s.st, t, READY, a.now);
  }

  /** What a closing thread still owes. */
  lemma ClosingOwes(s: Sys, p: int, u: Id)
    requires Inv(s) && p in s.pc && s.pc[p].Closing? && p in s.st.programs && s.st.programs[p].exec == Some(u)
    ensures u in s.st.tcbs && u.socket == p && s.pc[p].k <= |s.st.tcbs[u].joined|
    ensures Queue(s, OnJoin(u)) == s.st.tcbs[u].joined[s.pc[p].k..]
  {
    hide Inv, PhaseOk, Queue;
    PhaseOf(s, p);
    ExecOf(s, p);
    ClosingPhase(s, p);
    OwesFrom(s, p, u);
  }

  lemma OwesFrom(s: Sys, p: int, u: Id)
    requires p in s.pc && s.pc[p].Closing? && u.socket == p && Is(s.st, u, EXEC)
    requires s.pc[p].k <= |s.st.tcbs[u].joined|
    ensures Queue(s, OnJoin(u)) == s.st.tcbs[u].joined[s.pc[p].k..]
  {}

  lemma PhaseOf(s: Sys, p: int)
    requires Inv(s) && p in s.pc
    ensures PhaseOk(s.st, s.pc[p], p)
  {}

  lemma ClosingPhase(s: Sys, p: int)
    requires p in s.pc && PhaseOk(s.st, s.pc[p], p) && s.pc[p].Closing?
    ensures Running(s.st, p) && Exec(s.st, p) in s.st.tcbs && s.pc[p].k <= |s.st.tcbs[Exec(s.st, p)].joined|
  {}

  lemma ExecOf(s: Sys, p: int)
    requires Inv(s) && Running(s.st, p)
    ensures Is(s.st, Exec(s.st, p), EXEC) && Exec(s.st, p).socket == p
  {
    ExecIs(s.st, p);
  }

  lemma ReleasedStep(s: Sys, a: Action, p: int, u: Id, joined: seq<Id>, ready: seq<Id>)
    requires Inv(s) && Guard(s, a) && Safe(s, a) && ReleasedSoFar(s, p, u, joined, ready) && a.step == Unjoins(p)
    ensures ReleasedSoFar(Apply(s, a), p, u, joined, ready)
  {
    hide Inv, Guard, Safe, Apply, Queue, Subsequence;
    UnjoinMoves(s, a, p);
    JoinedKept(s, a, u);
    InvKept(s, a);
    ClosingOwes(Apply(s, a), p, u);
    var k := s.pc[p].k;
    SubsequenceBoth(ready + joined[..k], s.st.programs[p].ready, joined[k]);
    assert (ready + joined[..k]) + [joined[k]] == ready + joined[..k + 1];
  }

  lemma OthersRelease(s: Sys, a: Action, p: int, u: Id, joined: seq<Id>, ready: seq<Id>)
    requires Inv(s) && Guard(s, a) && Safe(s, a) && ReleasedSoFar(s, p, u, joined, ready) && !OwnStep(a.step, p)
    ensures ReleasedSoFar(Apply(s, a), p, u, joined, ready)
  {
    hide Inv, Guard, Safe, Apply, Queue, Subsequence;
    ClosingOwes(s, p, u);
    OthersOnlyAdd(s, a, p);
    JoinedKept(s, a, u);
    InvKept(s, a);
    ClosingOwes(Apply(s, a), p, u);
    SubsequenceLonger(ready + joined[..s.pc[p].k], s.st.programs[p].ready, Apply(s, a).st.programs[p].ready);
  }

  /** The loop of `unjoin_exec`, interleaved with anything the others do. */
  lemma {:induction false} UnjoinLoopRuns(s: Sys, run: seq<Action>, p: int, u: Id)
    requires Inv(s) && CanRun(s, run) && AtPc(s, p, Closing(0)) && p in s.st.programs
      && s.st.programs[p].exec == Some(u)
    requires u in s.st.tcbs
    requires forall i :: 0 <= i < |run| && OwnStep(run[i].step, p) ==> run[i].step == Unjoins(p)
    ensures ReleasedSoFar(After(s, run), p, u, s.st.tcbs[u].joined, s.st.programs[p].ready)
  {
    hide Inv, Guard, Safe, Apply, Queue, Subsequence, ReleasedSoFar;
    var joined, ready := s.st.tcbs[u].joined, s.st.programs[p].ready;
    if run == [] {
      UnjoinBegins(s, p, u);
    } else {
      var n := |run| - 1;
      var before := After(s, run[..n]);
      UnjoinLoopRuns(s, run[..n], p, u);
      RunInv(s, run[..n]);
      if OwnStep(run[n].step, p) {
        ReleasedStep(before, run[n], p, u, joined, ready);
      } else {
        OthersRelease(before, run[n], p, u, joined, ready);
      }
    }
  }

  lemma UnjoinBegins(s: Sys, p: int, u: Id)
    requires Inv(s) && AtPc(s, p, Closing(0)) && p in s.st.programs && s.st.programs[p].exec == Some(u)
    requires u in s.st.tcbs
    ensures ReleasedSoFar(s, p, u, s.st.tcbs[u].joined, s.st.programs[p].ready)
  {
    hide Inv, Queue, Subsequence;
    ClosingOwes(s, p, u);
    var joined, ready := s.st.tcbs[u].joined, s.st.programs[p].ready;
    assert joined[0..] == joined && ready + joined[..0] == ready;
    SubsequenceSelf(ready);
  }

  /** When the closing thread finishes, whatever the others did meanwhile, all that joined it are ready, in joining
      order and behind those that were, and it owes nobody a wakeup. */
  lemma UnjoinLoopEnds(s: Sys, run: seq<Action>, p: int, u: Id, now: real)
    requires Inv(s) && CanRun(s, run) && AtPc(s, p, Closing(0)) && p in s.st.programs
      && s.st.programs[p].exec == Some(u)
    requires u in s.st.tcbs
    requires forall i :: 0 <= i < |run| && OwnStep(run[i].step, p) ==> run[i].step == Unjoins(p)
    requires Guard(After(s, run), Action(Finishes(p), now))
    ensures CanRun(s, run + [Action(Finishes(p), now)])
    ensures var r := After(s, run + [Action(Finishes(p), now)]);
      && AtPc(r, p, Idle) && p in r.st.programs && r.st.programs[p].exec == None && Is(r.st, u, EXIT)
      && Subsequence(s.st.programs[p].ready + s.st.tcbs[u].joined, r.st.programs[p].ready)
      && Queue(r, OnJoin(u)) == []
  {
    hide Inv, Subsequence;
    UnjoinLoopRuns(s, run, p, u);
    var r := After(s, run);
    NoStepGoesWrong(s, run, Action(Finishes(p), now));
    RunInv(s, run);
    FinishLeaves(r, Action(Finishes(p), now), p, u);
    assert s.st.tcbs[u].joined[..r.pc[p].k] == s.st.tcbs[u].joined;
  }

  lemma FinishLeaves(s: Sys, a: Action, p: int, u: Id)
    requires Inv(s) && Guard(s, a) && Safe(s, a) && a.step == Finishes(p)
    requires p in s.st.programs && s.st.programs[p].exec == Some(u)
    ensures var r := Apply(s, a);
      && AtPc(r, p, Idle) && p in r.st.programs && r.st.programs[p].exec == None && Is(r.st, u, EXIT)
      && r.st.programs[p].ready == s.st.programs[p].ready && Queue(r, OnJoin(u)) == []
    ensures p in s.pc && s.pc[p].Closing? && u in s.st.tcbs && s.pc[p].k >= |s.st.tcbs[u].joined|
  {
    hide Inv, Guard, Safe, Apply, Move, Queue;
    FinishIs(s, a, p);
    ExecOf(s, p);
    MoveToExit(s.st, u, a.now);
    ExitOwesNothing(Apply(s, a), u);
  }

  lemma ExitOwesNothing(s: Sys, u: Id)
    requires Is(s.st, u, EXIT)
    ensures Queue(s, OnJoin(u)) == []
  {}
}
