// In which order threads go through the lists, over any run, and what the logs record of it.
module SuseOrders {
  import opened Lists
  import opened SuseTiming
  import opened SuseState
  import opened SuseInvariant
  import opened SuseSystem
  import opened SuseSafety
  import opened SusePlacement
  import opened SusePhases
  import opened SuseRuns

  // ---- who changes state in a step ----

  /** In this step `t` goes from `from` to `to`. */
  ghost predicate Goes(s: Sys, a: Action, t: Id, from: ThreadState, to: ThreadState)
    requires Safe(s, a)
  {
    from != to && Is(s.st, t, from) && Is(Apply(s, a).st, t, to)
  }

  /** The thread that goes from `from` to `to` in this step, if there is one. */
  ghost function Going(s: Sys, a: Action, from: ThreadState, to: ThreadState): seq<Id>
    requires Safe(s, a)
  {
    if t :| Goes(s, a, t, from, to) then [t] else []
  }

  /** The thread created in this step, if there is one. */
  ghost function CreatedIn(a: Action): seq<Id> {
    if a.step.Creating? then [Id(a.step.p, a.step.tid)] else []
  }

  /** It is the one the step moves, so there is never a second. */
  lemma GoesIsMoved(s: Sys, a: Action, t: Id, from: ThreadState, to: ThreadState)
    requires Guard(s, a) && Safe(s, a)
    ensures Goes(s, a, t, from, to) <==>
      from != to && Is(s.st, t, from) && Moved(s, a) == Some(Target(t, to))
  {
    hide Guard, Safe, Apply, Moved;
    if t in s.st.tcbs {
      LifeCycleAt(s, a, t);
    }
    if Moved(s, a) == Some(Target(t, to)) {
      MovesAway(s, a);
      hide Prepared, Move;
      MoveFrame(Prepared(s, a), t, to, a.now);
    }
  }

  lemma LifeCycleAt(s: Sys, a: Action, t: Id)
    requires Guard(s, a) && Safe(s, a) && t in s.st.tcbs
    ensures t in Apply(s, a).st.tcbs
    ensures var before, after := s.st.tcbs[t].state, Apply(s, a).st.tcbs[t].state;
      after == before || Moved(s, a) == Some(Target(t, after))
  {
    hide Guard, Safe, Apply, Moved;
    LifeCycle(s, a, t);
  }

  lemma GoingIs(s: Sys, a: Action, from: ThreadState, to: ThreadState)
    requires Guard(s, a) && Safe(s, a) && from != to
    ensures Moved(s, a).Some? && Moved(s, a).value.to == to && Is(s.st, Moved(s, a).value.t, from) ==>
      Going(s, a, from, to) == [Moved(s, a).value.t]
    ensures !(Moved(s, a).Some? && Moved(s, a).value.to == to && Is(s.st, Moved(s, a).value.t, from)) ==>
      Going(s, a, from, to) == []
  {
    hide Guard, Safe, Goes, Moved;
    forall t: Id
      ensures Goes(s, a, t, from, to) <==> Is(s.st, t, from) && Moved(s, a) == Some(Target(t, to))
    {
      GoesIsMoved(s, a, t, from, to);
    }
    if Moved(s, a).Some? && Moved(s, a).value.to == to && Is(s.st, Moved(s, a).value.t, from) {
      assert Goes(s, a, Moved(s, a).value.t, from, to);
    }
  }

  // ---- the lists after a step ----

  /** The lists a step leaves, in terms of the thread it moves. */
  lemma ListsAfter(s: Sys, a: Action)
    requires Guard(s, a) && Safe(s, a) && !a.step.Creating?
    ensures Moved(s, a) == None ==> var r := Apply(s, a).st;
      r.newList == s.st.newList && r.blockedList == s.st.blockedList && r.exitList == s.st.exitList
    ensures Moved(s, a).Some? ==>
      var r := Apply(s, a).st; var t := Moved(s, a).value.t; var to := Moved(s, a).value.to;
      && t in s.st.tcbs && s.st.tcbs[t].state != to
      && var from := s.st.tcbs[t].state;
      && r.newList == Through(s.st.newList, t, from == NEW, to == NEW)
      && r.blockedList == Through(s.st.blockedList, t, from == BLOCKED, to == BLOCKED)
      && r.exitList == Through(s.st.exitList, t, from == EXIT, to == EXIT)
  {
    hide Guard, Safe, Apply, Moved, Prepared, Move;
    NormalForm(s, a);
    PreparedLists(s, a);
    if Moved(s, a).Some? {
      MovesAway(s, a);
      MoveLists(Prepared(s, a), Moved(s, a).value.t, Moved(s, a).value.to, a.now);
    }
  }

  lemma PreparedLists(s: Sys, a: Action)
    requires Safe(s, a) && !a.step.Creating?
    ensures var b := Prepared(s, a);
      b.newList == s.st.newList && b.blockedList == s.st.blockedList && b.exitList == s.st.exitList
  {
    if !a.step.Connecting? {
      hide Safe, Prepared;
      PreparedKeeps(s, a);
    }
  }

  // ---- admission ----

  lemma HeadFirst(list: seq<Id>)
    requires list != []
    ensures Remove(list, list[0]) == list[1..] && [list[0]] + list[1..] == list
  {
    RemoveHead(list);
  }

  lemma LtTarget(s: Sys, a: Action)
    requires Inv(s) && Guard(s, a) && Safe(s, a) && a.step.LtMove?
    ensures s.st.newList != [] && Moved(s, a) == Some(Target(s.st.newList[0], READY))
    ensures Is(s.st, s.st.newList[0], NEW)
  {}

  lemma NewOnlyByLt(s: Sys, a: Action)
    requires Inv(s) && Guard(s, a) && Safe(s, a) && Moved(s, a).Some? && !a.step.LtMove?
    ensures Moved(s, a).value.t in s.st.tcbs && s.st.tcbs[Moved(s, a).value.t].state != NEW
  {
    hide Inv, Guard, Safe, Apply, Moved, Prepared, Move, MoveSafe;
    MovesAway(s, a);
    LegalMove(s.st, Moved(s, a).value.t, Moved(s, a).value.to);
    if Moved(s, a).value.to == READY {
      ReadyFrom(s, a);
    }
  }

  lemma ReadyFrom(s: Sys, a: Action)
    requires Inv(s) && Safe(s, a) && Moved(s, a).Some? && !a.step.LtMove? && Moved(s, a).value.to == READY
    ensures Is(s.st, Moved(s, a).value.t, BLOCKED) || Is(s.st, Moved(s, a).value.t, EXEC)
  {
    hide Inv, MoveSafe;
    InvPlaced(s);
    hide Placed;
    if a.step.Preempts? {
      ExecIs(s.st, a.step.p);
    }
  }

  lemma InvPlaced(s: Sys)
    requires Inv(s)
    ensures Placed(s.st)
  {}

  /** Creating puts a thread at the end of the new list; admitting takes the head; nothing else touches it. */
  lemma NewListStep(s: Sys, a: Action)
    requires Inv(s) && Guard(s, a) && Safe(s, a)
    ensures s.st.newList + CreatedIn(a) == Going(s, a, NEW, READY) + Apply(s, a).st.newList
  {
    hide Inv, Guard, Safe, Apply, Moved, Going;
    GoingIs(s, a, NEW, READY);
    if a.step.Creating? {
      CreatedLast(s, a);
    } else {
      ListsAfter(s, a);
      if a.step.LtMove? {
        LtTarget(s, a);
        HeadFirst(s.st.newList);
      } else if Moved(s, a).Some? {
        NewOnlyByLt(s, a);
        NeverNew(s, a);
      }
    }
  }

  lemma NeverNew(s: Sys, a: Action)
    requires Safe(s, a) && Moved(s, a).Some?
    ensures Moved(s, a).value.to != NEW
  {}

  lemma CreatedLast(s: Sys, a: Action)
    requires Safe(s, a) && a.step.Creating?
    ensures Moved(s, a) == None && Apply(s, a).st.newList == s.st.newList + [Id(a.step.p, a.step.tid)]
    ensures Apply(s, a).st.exitList == s.st.exitList && Apply(s, a).st.blockedList == s.st.blockedList
  {}

  /** The threads created in the run, in order. */
  ghost function Created(run: seq<Action>): seq<Id> {
    if run == [] then [] else Created(run[..|run| - 1]) + CreatedIn(run[|run| - 1])
  }

  /** The threads that went from `from` to `to` in the run, in order. */
  ghost function Gone(s: Sys, run: seq<Action>, from: ThreadState, to: ThreadState): seq<Id>
    requires CanRun(s, run)
  {
    if run == [] then []
    else var n := |run| - 1; Gone(s, run[..n], from, to) + Going(After(s, run[..n]), run[n], from, to)
  }

  /** First come, first admitted: those waiting at the start and those created since are, in order, those admitted and
      those still waiting. */
  lemma {:induction false} AdmissionOrder(s: Sys, run: seq<Action>)
    requires Inv(s) && CanRun(s, run)
    ensures s.st.newList + Created(run) == Gone(s, run, NEW, READY) + After(s, run).st.newList
  {
    hide Inv, Guard, Safe, Apply, Going;
    if run != [] {
      var n := |run| - 1;
      var before := After(s, run[..n]);
      AdmissionOrder(s, run[..n]);
      RunInv(s, run[..n]);
      NewListStep(before, run[n]);
      Regroup(s.st.newList, Created(run[..n]), CreatedIn(run[n]), Gone(s, run[..n], NEW, READY), before.st.newList,
        Going(before, run[n], NEW, READY), After(s, run).st.newList);
    }
  }

  lemma Regroup(a: seq<Id>, b: seq<Id>, c: seq<Id>, d: seq<Id>, e: seq<Id>, f: seq<Id>, g: seq<Id>)
    requires a + b == d + e && e + c == f + g
    ensures a + (b + c) == (d + f) + g
  {
    assert a + (b + c) == (a + b) + c;
    assert (d + e) + c == d + (e + c);
    assert d + (f + g) == (d + f) + g;
  }

  /** In every run from the start the threads are admitted in the order of their creation. */
  lemma AdmittedInOrder(alpha: real, maxMultiprog: nat, config: map<string, SemConfig>, now: real, run: seq<Action>)
    requires ConfigOk(alpha, config) && now >= 0.0 && CanRun(Start(alpha, maxMultiprog, config, now), run)
    ensures var s := Start(alpha, maxMultiprog, config, now);
      Created(run) == Gone(s, run, NEW, READY) + After(s, run).st.newList
  {
    var s := Start(alpha, maxMultiprog, config, now);
    hide Inv, Guard, Safe, Apply;
    StartInv(alpha, maxMultiprog, config, now);
    AdmissionOrder(s, run);
    assert [] + Created(run) == Created(run);
  }

  // ---- finishing and blocking ----

  lemma ExitListStep(s: Sys, a: Action)
    requires Inv(s) && Guard(s, a) && Safe(s, a)
    ensures Apply(s, a).st.exitList == s.st.exitList + Going(s, a, EXEC, EXIT)
  {
    hide Inv, Guard, Safe, Apply, Moved, Going;
    GoingIs(s, a, EXEC, EXIT);
    if a.step.Creating? {
      CreatedLast(s, a);
    } else {
      ListsAfter(s, a);
      if Moved(s, a).Some? {
        ExitFromExec(s, a);
      }
    }
  }

  lemma ExitFromExec(s: Sys, a: Action)
    requires Inv(s) && Guard(s, a) && Safe(s, a) && Moved(s, a).Some?
    ensures var m := Moved(s, a).value;
      m.t in s.st.tcbs && s.st.tcbs[m.t].state != EXIT && (m.to == EXIT ==> s.st.tcbs[m.t].state == EXEC)
  {
    hide Inv, Guard, Safe, Apply, Moved, Prepared, Move, MoveSafe;
    MovesAway(s, a);
    LegalMove(s.st, Moved(s, a).value.t, Moved(s, a).value.to);
  }

  /** The exit list has the finished threads in the order in which they finished. */
  lemma {:induction false} ExitOrder(s: Sys, run: seq<Action>)
    requires Inv(s) && CanRun(s, run)
    ensures After(s, run).st.exitList == s.st.exitList + Gone(s, run, EXEC, EXIT)
  {
    hide Inv, Guard, Safe, Apply, Going;
    if run != [] {
      var n := |run| - 1;
      ExitOrder(s, run[..n]);
      RunInv(s, run[..n]);
      ExitListStep(After(s, run[..n]), run[n]);
    }
  }

  /** A thread that blocks goes to the end of the blocked list; one that wakes leaves it and the order of the rest. */
  lemma BlockedListStep(s: Sys, a: Action)
    requires Inv(s) && Guard(s, a) && Safe(s, a)
    ensures var woken := Going(s, a, BLOCKED, READY); var r := Apply(s, a).st.blockedList;
      r == (if woken == [] then s.st.blockedList else Remove(s.st.blockedList, woken[0])) + Going(s, a, EXEC, BLOCKED)
  {
    hide Inv, Guard, Safe, Apply, Moved, Going, Remove;
    GoingIs(s, a, EXEC, BLOCKED);
    GoingIs(s, a, BLOCKED, READY);
    if a.step.Creating? {
      CreatedLast(s, a);
    } else {
      ListsAfter(s, a);
      if Moved(s, a).Some? {
        BlockedNeighbours(s, a);
      }
    }
  }

  lemma BlockedNeighbours(s: Sys, a: Action)
    requires Guard(s, a) && Safe(s, a) && Moved(s, a).Some?
    ensures var m := Moved(s, a).value;
      && m.t in s.st.tcbs && (m.to == BLOCKED ==> s.st.tcbs[m.t].state == EXEC)
      && (s.st.tcbs[m.t].state == BLOCKED ==> m.to == READY)
  {
    hide Guard, Safe, Apply, Moved, Prepared, Move, MoveSafe;
    MovesAway(s, a);
    LegalMove(s.st, Moved(s, a).value.t, Moved(s, a).value.to);
  }

  // ---- the log ----

  /** The log records each change of state at its instant, and the fresh burst of a running thread that is kept;
      nothing else. */
  lemma LogRecords(s: Sys, a: Action, t: Id)
    requires Inv(s) && Guard(s, a) && Safe(s, a) && t in s.st.tcbs
    ensures t in s.st.log && t in Apply(s, a).st.log && t in Apply(s, a).st.tcbs
    ensures var before, after := s.st.tcbs[t].state, Apply(s, a).st.tcbs[t].state;
      Apply(s, a).st.log[t] == s.st.log[t] +
        if after != before then [Event(after, a.now)]
        else if Kept(s, a, t) then [Event(EXEC, a.now)]
        else []
  {
    hide Inv, Guard, Safe, Apply, Moved, Prepared, Move, Switch, Kept;
    Logged(s, t);
    if a.step.Schedules? {
      ScheduleLog(s, a, t);
    } else {
      NotKept(s, a, t);
      NormalForm(s, a);
      NotNew(s, a, t);
      PreparedTimes(s, a, t);
      if Moved(s, a).Some? {
        MovesAway(s, a);
        MoveFrame(Prepared(s, a), Moved(s, a).value.t, Moved(s, a).value.to, a.now);
      }
    }
  }

  /** `schedule_next_for` keeps the running thread `t`. */
  ghost predicate Kept(s: Sys, a: Action, t: Id) {
    && a.step.Schedules? && CanScan(s.st, a.step.p) && ChosenPos(s.st, a.step.p, a.now) == -1
    && s.st.programs[a.step.p].exec == Some(t)
  }

  lemma Logged(s: Sys, t: Id)
    requires Inv(s) && t in s.st.tcbs
    ensures t in s.st.log
  {
    assert t in s.st.tcbs.Keys;
  }

  lemma NotKept(s: Sys, a: Action, t: Id)
    requires !a.step.Schedules?
    ensures !Kept(s, a, t)
  {}

  lemma NotNew(s: Sys, a: Action, t: Id)
    requires Guard(s, a) && t in s.st.tcbs
    ensures a.step.Creating? ==> t != Id(a.step.p, a.step.tid)
  {}

  lemma ScheduleLog(s: Sys, a: Action, t: Id)
    requires Inv(s) && Guard(s, a) && Safe(s, a) && a.step.Schedules? && t in s.st.tcbs && t in s.st.log
    ensures t in Apply(s, a).st.log && t in Apply(s, a).st.tcbs
    ensures Apply(s, a).st.tcbs[t].state == s.st.tcbs[t].state
    ensures Apply(s, a).st.log[t] == s.st.log[t] + if Kept(s, a, t) then [Event(EXEC, a.now)] else []
  {
    hide Inv, Switch, ChosenPos, Bound, Estimate;
  }
}
