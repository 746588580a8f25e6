// What single steps do, field by field: each is its bookkeeping, its one move and the new control point.
module SuseSteps {
  import opened Lists
  import opened SuseTiming
  import opened SuseState
  import opened SuseSystem
  import opened SusePlacement

  // ---- moves between two given states ----

  lemma ExecToReady(st: State, t: Id, now: real)
    requires Known(st, t) && Is(st, t, EXEC)
    ensures var r := Move(st, t, READY, now); var prog := st.programs[t.socket];
      r.programs ==
        st.programs[t.socket := prog.(exec := None, ready := prog.ready + [t], counter := prog.counter + 1)]
  {
    hide Switch, Remove;
  }

  lemma ReadyToExec(st: State, t: Id, now: real)
    requires Known(st, t) && Is(st, t, READY)
    ensures var r := Move(st, t, EXEC, now); var prog := st.programs[t.socket];
      r.programs ==
        st.programs[t.socket := prog.(exec := Some(t), ready := Remove(prog.ready, t), counter := prog.counter - 1)]
  {
    hide Switch, Remove;
  }

  lemma MoveToExit(st: State, t: Id, now: real)
    requires Known(st, t) && Is(st, t, EXEC)
    ensures var r := Move(st, t, EXIT, now);
      && r.programs == st.programs[t.socket := st.programs[t.socket].(exec := None)]
      && t in r.tcbs && r.tcbs[t].state == EXIT
  {
    hide Switch, Remove;
  }

  /** A move stays safe under bookkeeping that touches neither lists nor states. */
  lemma StillSafe(a: State, b: State, t: Id, to: ThreadState)
    requires MoveSafe(a, t, to)
    requires b.tcbs.Keys == a.tcbs.Keys && b.log == a.log && b.programs.Keys == a.programs.Keys
      && b.available == a.available
    requires b.newList == a.newList && b.blockedList == a.blockedList
    requires forall u :: u in a.tcbs ==> b.tcbs[u].state == a.tcbs[u].state
    requires t in a.tcbs && t.socket in a.programs ==>
      var p, q := a.programs[t.socket], b.programs[t.socket];
      q.ready == p.ready && q.exec == p.exec && q.counter == p.counter
    ensures MoveSafe(b, t, to) && Known(b, t)
  {
  }

  // ---- steps ----

  lemma CreatingIs(s: Sys, p: int, tid: int, now: real)
    requires Safe(s, Action(Creating(p, tid), now))
    ensures Apply(s, Action(Creating(p, tid), now)) ==
      s.(clock := now, st := CreateTcb(s.st, Id(p, tid), now), pc := if tid == 0 then s.pc[p := Loading] else s.pc)
  {}

  lemma UnjoinIs(s: Sys, a: Action, p: int)
    requires Guard(s, a) && Safe(s, a) && a.step == Unjoins(p)
    ensures Running(s.st, p) && Exec(s.st, p) in s.st.tcbs && p in s.pc && s.pc[p].Closing?
    ensures s.pc[p].k < |s.st.tcbs[Exec(s.st, p)].joined|
    ensures var t := s.st.tcbs[Exec(s.st, p)].joined[s.pc[p].k];
      && Known(s.st, t)
      && Apply(s, a) ==
           s.(clock := a.now, st := Move(s.st, t, READY, a.now), pc := s.pc[p := Closing(s.pc[p].k + 1)])
  {
    hide Move;
  }

  lemma UnjoinStep(s: Sys, p: int, now: real)
    requires Safe(s, Action(Unjoins(p), now))
    ensures Running(s.st, p) && Exec(s.st, p) in s.st.tcbs && p in s.pc && s.pc[p].Closing?
    ensures s.pc[p].k < |s.st.tcbs[Exec(s.st, p)].joined|
    ensures var t := s.st.tcbs[Exec(s.st, p)].joined[s.pc[p].k];
      && Known(s.st, t) && Is(s.st, t, BLOCKED) && MoveSafe(s.st, t, READY)
      && Apply(s, Action(Unjoins(p), now)) ==
           s.(clock := now, st := Move(s.st, t, READY, now), pc := s.pc[p := Closing(s.pc[p].k + 1)])
  {
    hide Move;
  }

  lemma FinishIs(s: Sys, a: Action, p: int)
    requires Guard(s, a) && Safe(s, a) && a.step == Finishes(p)
    ensures Running(s.st, p) && Known(s.st, Exec(s.st, p)) && p in s.pc && s.pc[p].Closing?
    ensures s.pc[p].k >= |s.st.tcbs[Exec(s.st, p)].joined|
    ensures Apply(s, a) ==
      s.(clock := a.now, st := Move(s.st, Exec(s.st, p), EXIT, a.now), pc := s.pc[p := Idle])
  {
    hide Move;
  }

  /** The wakeup list without position `i`. */
  function Taken(prog: Program, i: nat): Program
    requires i < |prog.wakeup|
  {
    prog.(wakeup := prog.wakeup[..i] + prog.wakeup[i + 1..])
  }

  /** The program after its position `i` was woken. */
  function Woken(prog: Program, i: nat): Program
    requires i < |prog.wakeup|
  {
    Taken(prog, i).(ready := prog.ready + [prog.wakeup[i]])
  }

  lemma WakeNextIs(s: Sys, p: int, now: real)
    requires Safe(s, Action(WakeNext(p), now))
    ensures p in s.pc && s.pc[p].Waking? && p in s.st.programs && s.pc[p].i < |s.st.programs[p].wakeup|
    ensures var i := s.pc[p].i; var prog := s.st.programs[p]; var t := prog.wakeup[i];
      && Known(s.st, t) && Is(s.st, t, BLOCKED) && t.socket == p && MoveSafe(s.st, t, READY)
      && var listed := s.st.(programs := s.st.programs[p := Taken(prog, i)]);
      && Known(listed, t)
      && var moved := Move(listed, t, READY, now);
      && p in moved.programs
      && moved.programs[p := moved.programs[p].(counter := moved.programs[p].counter - 1)]
         == s.st.programs[p := Woken(prog, i)]
      && Apply(s, Action(WakeNext(p), now)) ==
           s.(clock := now, st := moved.(programs := s.st.programs[p := Woken(prog, i)]), pc :=
             s.pc[p := Waking(i + 1)])
  {
    hide Move;
    var i := s.pc[p].i;
    var prog := s.st.programs[p];
    var listed := s.st.(programs := s.st.programs[p := Taken(prog, i)]);
    MoveToReady(listed, prog.wakeup[i], now);
    var moved := Move(listed, prog.wakeup[i], READY, now);
    assert moved.programs[p := moved.programs[p].(counter := moved.programs[p].counter - 1)]
      == s.st.programs[p := Woken(prog, i)];
  }

  lemma JoinIs(s: Sys, p: int, tid: int, now: real)
    requires Safe(s, Action(Joins(p, tid), now))
    ensures Running(s.st, p) && Known(s.st, Exec(s.st, p)) && MoveSafe(s.st, Exec(s.st, p), BLOCKED)
    ensures Id(p, tid) in s.st.tcbs
    ensures var u := Id(p, tid); var t := Exec(s.st, p); var tcb := s.st.tcbs[u];
      var listed := s.st.(tcbs := s.st.tcbs[u := tcb.(joined := tcb.joined + [t])]);
      && Known(listed, t)
      && Apply(s, Action(Joins(p, tid), now)) ==
           s.(clock := now, st := if tcb.state == EXIT then s.st else Move(listed, t, BLOCKED, now))
  {
    hide Move;
  }

  lemma ScheduleIs(s: Sys, p: int, now: real)
    requires Safe(s, Action(Schedules(p), now))
    ensures CanScan(s.st, p) && (ChosenPos(s.st, p, now) == -1 ==> Running(s.st, p))
    ensures var pos := ChosenPos(s.st, p, now);
      Apply(s, Action(Schedules(p), now)) ==
        s.(clock := now, st := Choose(s.st, p, now),
           pc := s.pc[p := if pos == -1 then Idle
                           else if Running(s.st, p) then Preempting(s.st.programs[p].ready[pos])
                           else Resuming(s.st.programs[p].ready[pos])])
  {
    hide Choose, ChosenPos;
  }

  lemma PreemptIs(s: Sys, p: int, now: real)
    requires Safe(s, Action(Preempts(p), now))
    ensures Running(s.st, p) && Known(s.st, Exec(s.st, p)) && MoveSafe(s.st, Exec(s.st, p), READY)
    ensures p in s.pc && s.pc[p].Preempting?
    ensures Apply(s, Action(Preempts(p), now)) ==
      s.(clock := now, st := Move(s.st, Exec(s.st, p), READY, now), pc := s.pc[p := Resuming(s.pc[p].next)])
  {
    hide Move;
  }

  lemma ResumeIs(s: Sys, p: int, now: real)
    requires Safe(s, Action(Resumes(p), now))
    ensures p in s.pc && s.pc[p].Resuming? && Known(s.st, s.pc[p].next) && MoveSafe(s.st, s.pc[p].next, EXEC)
    ensures Apply(s, Action(Resumes(p), now)) ==
      s.(clock := now, st := Move(s.st, s.pc[p].next, EXEC, now), pc := s.pc[p := Idle])
  {
    hide Move;
  }
}
