// Joins over whole runs: a thread that joins another sleeps until that thread's own close releases it.
module SuseJoins {
  import opened Lists
  import opened SuseTiming
  import opened SuseState
  import opened SuseInvariant
  import opened SuseSystem
  import opened SuseSteps
  import opened SuseSafety
  import opened SusePlacement
  import opened SuseWakers
  import opened SuseRuns
  import opened SuseProgress
  import opened SuseLoops

  /** In this step the closing thread `u` releases `t`. */
  ghost predicate Releases(s: Sys, a: Action, t: Id, u: Id) {
    && a.step == Unjoins(u.socket) && Running(s.st, u.socket) && Exec(s.st, u.socket) == u
    && u.socket in s.pc && s.pc[u.socket].Closing? && u in s.st.tcbs
    && s.pc[u.socket].k < |s.st.tcbs[u].joined| && s.st.tcbs[u].joined[s.pc[u.socket].k] == t
  }

  ghost predicate NotReleased(s: Sys, run: seq<Action>, t: Id, u: Id)
    requires CanRun(s, run)
  {
    run == [] ||
    var n := |run| - 1;
    NotReleased(s, run[..n], t, u) && !Releases(After(s, run[..n]), run[n], t, u)
  }

  lemma JoinedGrows(s: Sys, a: Action, u: Id)
    requires Guard(s, a) && Safe(s, a) && u in s.st.tcbs
    ensures u in Apply(s, a).st.tcbs && s.st.tcbs[u].joined <= Apply(s, a).st.tcbs[u].joined
  {
    if a.step.Joins? && a.step.p == u.socket {
      JoinAppends(s, a, u);
    } else {
      hide Guard, Safe, Apply;
      JoinedKept(s, a, u);
    }
  }

  lemma JoinAppends(s: Sys, a: Action, u: Id)
    requires Guard(s, a) && Safe(s, a) && u in s.st.tcbs && a.step.Joins?
    ensures u in Apply(s, a).st.tcbs && s.st.tcbs[u].joined <= Apply(s, a).st.tcbs[u].joined
  {
    PreparedAppends(s, a, u);
    hide Guard, Safe, Apply, Moved, Prepared, Move, MoveSafe, Switch;
    NormalForm(s, a);
    if Moved(s, a).Some? {
      MovesAway(s, a);
      MoveFrame(Prepared(s, a), Moved(s, a).value.t, Moved(s, a).value.to, a.now);
    }
  }

  lemma PreparedAppends(s: Sys, a: Action, u: Id)
    requires Safe(s, a) && u in s.st.tcbs && a.step.Joins?
    ensures u in Prepared(s, a).tcbs && s.st.tcbs[u].joined <= Prepared(s, a).tcbs[u].joined
  {
    hide MoveSafe;
  }

  /** Only a thread's own close makes it EXIT. */
  lemma StaysAlive(s: Sys, a: Action, u: Id)
    requires Inv(s) && Guard(s, a) && Safe(s, a) && u in s.st.tcbs && s.st.tcbs[u].state != EXIT
    requires !(a.step == Finishes(u.socket) && Running(s.st, u.socket) && Exec(s.st, u.socket) == u)
    ensures u in Apply(s, a).st.tcbs && Apply(s, a).st.tcbs[u].state != EXIT
  {
    hide Inv, Guard, Safe, Apply, Moved;
    LifeCycle(s, a, u);
    if Moved(s, a).Some? && Moved(s, a).value == Target(u, EXIT) {
      ToExit(s, a);
      ExecOf(s, a.step.p);
    }
  }

  lemma ToExit(s: Sys, a: Action)
    requires Safe(s, a) && Moved(s, a).Some? && Moved(s, a).value.to == EXIT
    ensures a.step.Finishes? && Running(s.st, a.step.p) && Moved(s, a).value.t == Exec(s.st, a.step.p)
  {}

  /** The count of threads released changes only with the thread's own releases. */
  lemma ReleasedStays(s: Sys, a: Action, u: Id)
    requires Inv(s) && Guard(s, a) && Safe(s, a) && u in s.st.tcbs
    requires OwnStep(a.step, u.socket) ==> !a.step.Unjoins? && !a.step.Finishes?
    ensures Released(s, u) == Released(Apply(s, a), u)
  {
    hide Inv, Guard, Safe, Apply, Released;
    if OwnStep(a.step, u.socket) {
      KeysOf(s);
      OwnNotClosing(s, a, u.socket);
      ReleasedNone(s, u);
      JoinedGrows(s, a, u);
      ReleasedNone(Apply(s, a), u);
    } else {
      OthersReleased(s, a, u);
    }
  }

  lemma KeysOf(s: Sys)
    requires Inv(s)
    ensures s.pc.Keys == s.st.programs.Keys
  {}

  lemma OwnNotClosing(s: Sys, a: Action, p: int)
    requires Guard(s, a) && Safe(s, a) && OwnStep(a.step, p) && !a.step.Unjoins? && !a.step.Finishes?
    requires s.pc.Keys == s.st.programs.Keys
    ensures p in s.pc ==> !s.pc[p].Closing?
    ensures p in Apply(s, a).pc && Apply(s, a).pc[p].Closing? ==> Apply(s, a).pc[p].k == 0
  {
    hide MoveSafe, Move, Wait, Signal, Join, WakeOne, Choose, ChosenPos;
  }

  lemma ReleasedNone(s: Sys, u: Id)
    requires u.socket in s.pc && s.pc[u.socket].Closing? ==> s.pc[u.socket].k == 0
    ensures Released(s, u) == 0
  {}

  lemma OthersReleased(s: Sys, a: Action, u: Id)
    requires Inv(s) && Guard(s, a) && Safe(s, a) && u in s.st.tcbs && !OwnStep(a.step, u.socket)
    ensures Released(s, u) == Released(Apply(s, a), u)
  {
    hide Inv, Guard, Safe, Apply, Released;
    SocketKnown(s, u);
    PcKept(s, a, u.socket);
    JoinedKept(s, a, u);
    ExecStays(s, a, u);
    SameReleased(s, Apply(s, a), u);
  }

  lemma SocketKnown(s: Sys, u: Id)
    requires Inv(s) && u in s.st.tcbs
    ensures u.socket in s.st.programs
  {
    Contents(s.st);
  }

  /** Another's step neither starts nor stops a thread. */
  lemma ExecStays(s: Sys, a: Action, u: Id)
    requires Inv(s) && Guard(s, a) && Safe(s, a) && u in s.st.tcbs && !OwnStep(a.step, u.socket)
    ensures Is(Apply(s, a).st, u, EXEC) <==> Is(s.st, u, EXEC)
  {
    hide Inv, Guard, Safe, Apply, Moved;
    LifeCycle(s, a, u);
    if Moved(s, a).Some? && Moved(s, a).value.t == u {
      if a.step.LtMove? {
        LtMovesNew(s, a);
      } else {
        MovesOwn(s, a);
      }
    }
  }

  lemma LtMovesNew(s: Sys, a: Action)
    requires Safe(s, a) && a.step.LtMove?
    ensures Moved(s, a) == Some(Target(s.lt.t, READY)) && Is(s.st, s.lt.t, NEW)
  {}

  lemma SameReleased(s: Sys, r: Sys, u: Id)
    requires u in s.st.tcbs && u in r.st.tcbs && r.st.tcbs[u].joined == s.st.tcbs[u].joined
    requires Is(r.st, u, EXEC) <==> Is(s.st, u, EXEC)
    requires u.socket in s.pc && u.socket in r.pc && r.pc[u.socket] == s.pc[u.socket]
    ensures Released(r, u) == Released(s, u)
  {}

  lemma StillOwed(s: Sys, r: Sys, t: Id, u: Id)
    requires InQueue(s, t, OnJoin(u)) && u in r.st.tcbs && r.st.tcbs[u].state != EXIT
    requires s.st.tcbs[u].joined <= r.st.tcbs[u].joined && Released(r, u) == Released(s, u)
    ensures InQueue(r, t, OnJoin(u))
  {
    var k := Released(s, u);
    var i :| k <= i < |s.st.tcbs[u].joined| && s.st.tcbs[u].joined[i] == t;
    assert r.st.tcbs[u].joined[i] == t;
    assert r.st.tcbs[u].joined[k..][i - k] == t;
  }

  /** A release of another thread by `u` keeps `t` owed. */
  lemma UnjoinKeepsOwed(s: Sys, a: Action, t: Id, u: Id)
    requires Inv(s) && Guard(s, a) && Safe(s, a) && InQueue(s, t, OnJoin(u)) && !Releases(s, a, t, u)
    requires a.step == Unjoins(u.socket)
    ensures InQueue(Apply(s, a), t, OnJoin(u))
  {
    hide Inv, Guard, Safe, Apply, Queue;
    UnjoinIs(s, a, u.socket);
    var k := s.pc[u.socket].k;
    var e := Exec(s.st, u.socket);
    UnjoinMoves(s, a, u.socket);
    OwedTo(s, t, u);
    JoinedKept(s, a, u);
    InvKept(s, a);
    if e == u {
      ClosingOwes(s, u.socket, u);
      ClosingOwes(Apply(s, a), u.socket, u);
      var joined := s.st.tcbs[u].joined;
      assert joined[k..] == [joined[k]] + joined[k + 1..];
    } else {
      StaysAlive(s, a, u);
      OnlyOneRuns(s, u.socket, u);
      OnlyOneRuns(Apply(s, a), u.socket, u);
      NotRunning(s, u);
      NotRunning(Apply(s, a), u);
      StillOwed(s, Apply(s, a), t, u);
    }
  }

  lemma OwedTo(s: Sys, t: Id, u: Id)
    requires InQueue(s, t, OnJoin(u))
    ensures u in s.st.tcbs && s.st.tcbs[u].state != EXIT
  {}

  lemma OnlyOneRuns(s: Sys, p: int, u: Id)
    requires Inv(s) && Running(s.st, p) && Exec(s.st, p) != u && u.socket == p
    ensures !Is(s.st, u, EXEC)
  {
    PlacedOf(s);
    hide Inv;
    ExecIsOnly(s.st, p);
  }

  lemma NotRunning(s: Sys, u: Id)
    requires !Is(s.st, u, EXEC)
    ensures Released(s, u) == 0
  {}

  lemma FinishOwesNone(s: Sys, a: Action, t: Id, u: Id)
    requires Inv(s) && Guard(s, a) && Safe(s, a) && InQueue(s, t, OnJoin(u)) && a.step == Finishes(u.socket)
    ensures Running(s.st, u.socket) && Exec(s.st, u.socket) != u
  {
    hide Inv, Guard, Safe, Queue;
    FinishIs(s, a, u.socket);
    if Exec(s.st, u.socket) == u {
      ClosingOwes(s, u.socket, u);
      assert false;
    }
  }

  lemma FinishKeepsOwed(s: Sys, a: Action, t: Id, u: Id)
    requires Inv(s) && Guard(s, a) && Safe(s, a) && InQueue(s, t, OnJoin(u)) && a.step == Finishes(u.socket)
    ensures InQueue(Apply(s, a), t, OnJoin(u))
  {
    hide Inv, Guard, Safe, Apply, Queue, Released;
    FinishOwesNone(s, a, t, u);
    OwedTo(s, t, u);
    OnlyOneRuns(s, u.socket, u);
    NotRunning(s, u);
    JoinedKept(s, a, u);
    StaysAlive(s, a, u);
    FinishIdle(s, a, u.socket);
    ReleasedNone(Apply(s, a), u);
    StillOwed(s, Apply(s, a), t, u);
  }

  lemma FinishIdle(s: Sys, a: Action, p: int)
    requires Guard(s, a) && Safe(s, a) && a.step == Finishes(p)
    ensures AtPc(Apply(s, a), p, Idle)
  {
    hide Move;
  }

  /** One step of anybody keeps a joined thread owed its wakeup, unless it is the release itself. */
  lemma JoinStep(s: Sys, a: Action, t: Id, u: Id)
    requires Inv(s) && Guard(s, a) && Safe(s, a) && InQueue(s, t, OnJoin(u)) && !Releases(s, a, t, u)
    ensures InQueue(Apply(s, a), t, OnJoin(u))
  {
    hide Inv, Guard, Safe, Apply, InQueue, Released, Releases;
    OwedTo(s, t, u);
    if a.step == Unjoins(u.socket) {
      UnjoinKeepsOwed(s, a, t, u);
    } else if a.step == Finishes(u.socket) {
      FinishKeepsOwed(s, a, t, u);
    } else {
      JoinedGrows(s, a, u);
      StaysAlive(s, a, u);
      ReleasedStays(s, a, u);
      StillOwed(s, Apply(s, a), t, u);
    }
  }

  /** A joined thread stays BLOCKED, and owed its wakeup by the thread it joined, over any run until that thread's own
      close releases it. */
  lemma {:induction false} JoinedUntilReleased(s: Sys, run: seq<Action>, t: Id, u: Id)
    requires Inv(s) && CanRun(s, run) && InQueue(s, t, OnJoin(u)) && NotReleased(s, run, t, u)
    ensures InQueue(After(s, run), t, OnJoin(u)) && Is(After(s, run).st, t, BLOCKED)
  {
    hide Inv, Guard, Safe, Apply, InQueue, Releases;
    if run == [] {
      OwedIsBlocked(s, t, u);
    } else {
      var n := |run| - 1;
      JoinedUntilReleased(s, run[..n], t, u);
      RunInv(s, run[..n]);
      JoinStep(After(s, run[..n]), run[n], t, u);
      RunInv(s, run);
      OwedIsBlocked(After(s, run), t, u);
    }
  }

  lemma OwedIsBlocked(s: Sys, t: Id, u: Id)
    requires Inv(s) && InQueue(s, t, OnJoin(u))
    ensures Is(s.st, t, BLOCKED)
  {}

  /** A join on a thread that has not finished puts the caller to sleep, last of those that thread owes a wakeup. */
  lemma JoinEnters(s: Sys, p: int, tid: int, now: real)
    requires Inv(s) && Guard(s, Action(Joins(p, tid), now)) && Safe(s, Action(Joins(p, tid), now))
    requires !Is(s.st, Id(p, tid), EXIT)
    ensures var r := Apply(s, Action(Joins(p, tid), now)); var u := Id(p, tid);
      && InQueue(r, Exec(s.st, p), OnJoin(u)) && Is(r.st, Exec(s.st, p), BLOCKED)
      && u in s.st.tcbs && u in r.st.tcbs && r.st.tcbs[u].joined == s.st.tcbs[u].joined + [Exec(s.st, p)]
  {
    hide Inv, Move;
    var a := Action(Joins(p, tid), now);
    ExecOf(s, p);
    JoinedOnce(s, a);
  }

  lemma JoinedOnce(s: Sys, a: Action)
    requires Guard(s, a) && Safe(s, a) && a.step.Joins? && Running(s.st, a.step.p)
    requires !Is(s.st, Id(a.step.p, a.step.tid), EXIT) && Is(s.st, Exec(s.st, a.step.p), EXEC)
    ensures var r := Apply(s, a); var u := Id(a.step.p, a.step.tid); var t := Exec(s.st, a.step.p);
      && InQueue(r, t, OnJoin(u)) && Is(r.st, t, BLOCKED)
      && u in s.st.tcbs && u in r.st.tcbs && r.st.tcbs[u].joined == s.st.tcbs[u].joined + [t]
  {
    hide Guard, Safe, Apply, Prepared, Moved, Move, MoveSafe, Queue, Switch;
    var u := Id(a.step.p, a.step.tid);
    var t := Exec(s.st, a.step.p);
    JoinPrepared(s, a);
    MovesAway(s, a);
    MoveFrame(Prepared(s, a), t, BLOCKED, a.now);
    LastOwed(s, a, t);
  }

  lemma JoinPrepared(s: Sys, a: Action)
    requires Guard(s, a) && Safe(s, a) && a.step.Joins? && !Is(s.st, Id(a.step.p, a.step.tid), EXIT)
    ensures Running(s.st, a.step.p)
    ensures var u := Id(a.step.p, a.step.tid); var t := Exec(s.st, a.step.p); var b := Prepared(s, a);
      && Moved(s, a) == Some(Target(t, BLOCKED)) && t != u
      && u in s.st.tcbs && u in b.tcbs && b.tcbs[u].state == s.st.tcbs[u].state
      && b.tcbs[u].joined == s.st.tcbs[u].joined + [t]
  {
    hide MoveSafe;
  }

  /** The last of a joined list is owed, unless the thread is closing. */
  lemma LastOwed(s: Sys, a: Action, t: Id)
    requires Guard(s, a) && Safe(s, a) && a.step.Joins?
    requires var u := Id(a.step.p, a.step.tid); var r := Apply(s, a).st;
      u in r.tcbs && r.tcbs[u].state != EXIT && r.tcbs[u].joined != [] && r.tcbs[u].joined[|r.tcbs[u].joined| - 1] == t
    ensures InQueue(Apply(s, a), t, OnJoin(Id(a.step.p, a.step.tid)))
  {
    hide Join, MoveSafe;
    var r := Apply(s, a);
    assert Released(r, Id(a.step.p, a.step.tid)) == 0;
  }

  /** The release makes it READY. */
  lemma ReleaseWakes(s: Sys, a: Action, t: Id, u: Id)
    requires Inv(s) && Guard(s, a) && Safe(s, a) && Releases(s, a, t, u)
    ensures Is(Apply(s, a).st, t, READY) && u.socket in Apply(s, a).st.programs
    ensures t in Apply(s, a).st.programs[u.socket].ready
  {
    hide Inv, Guard, Safe, Apply, Queue;
    UnjoinIs(s, a, u.socket);
    UnjoinMoves(s, a, u.socket);
    UnjoinTarget(s, u.socket);
    MoveFrame(s.st, t, READY, a.now);
  }
}
