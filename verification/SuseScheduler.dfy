// suse_scheduler.c as it runs: the operations on the shared lists, each shown to be
// the run of the state machine that SuseSystem describes.
module SuseScheduler {
  import opened Lists
  import opened SuseTiming
  import opened SuseState
  import opened SuseHalves
  import opened SuseInvariant
  import opened SuseSystem
  import opened SuseSteps
  import opened SuseSafety
  import opened SusePlacement
  import opened SuseRuns

  ghost predicate Follows(s: Sys, run: seq<Action>, r: Sys) {
    CanRun(s, run) && r == After(s, run)
  }

  /** `n` rounds of the same step, one clock reading each. */
  function Rounds(step: Step, n: nat, clock: nat -> real): seq<Action> {
    seq(n, i requires 0 <= i < n => Action(step, clock(i)))
  }

  ghost predicate Ticks(clock: nat -> real, from: real) {
    (forall i: nat :: from <= clock(i) < FLT_MAX) && forall i: nat, j: nat :: i <= j ==> clock(i) <= clock(j)
  }

  lemma FollowStep(s: Sys, run: seq<Action>, r: Sys, a: Action)
    requires Inv(s) && Follows(s, run, r) && Guard(r, a)
    ensures Safe(r, a) && Follows(s, run + [a], Apply(r, a))
  {
    NoStepGoesWrong(s, run, a);
  }

  lemma FirstStep(s: Sys, a: Action)
    requires Inv(s) && Guard(s, a)
    ensures Safe(s, a) && Follows(s, [a], Apply(s, a))
  {
    FollowNone(s);
    FollowStep(s, [], s, a);
    assert [] + [a] == [a];
  }

  lemma FollowInv(s: Sys, run: seq<Action>, r: Sys)
    requires Inv(s) && Follows(s, run, r)
    ensures Inv(r)
  {
    RunInv(s, run);
  }

  lemma FollowNone(s: Sys)
    ensures Follows(s, [], s)
  {
  }

  function WakeRun(p: int, n: nat, clock: nat -> real): seq<Action> {
    [Action(WakeBegins(p), clock(0))] + Rounds(WakeNext(p), (n + 1) / 2, clock) + [Action(WakeEnds(p), clock(n))]
  }

  lemma RoundsExtend(run: seq<Action>, step: Step, n: nat, clock: nat -> real)
    ensures run + Rounds(step, n + 1, clock) == (run + Rounds(step, n, clock)) + [Action(step, clock(n))]
  {
  }

  function CloseRun(p: int, tid: int, n: nat, clock: nat -> real): seq<Action> {
    [Action(Closes(p, tid), clock(0))] + Rounds(Unjoins(p), n, clock) + [Action(Finishes(p), clock(n))]
  }

  lemma RunAssoc(a: seq<Action>, b: seq<Action>, c: seq<Action>)
    ensures (a + b) + c == a + (b + c)
  {
  }

  /** From `s` to `r` the running thread of `p` finished, and the threads that joined it became READY, in joining
      order. */
  ghost predicate Closed(s: Sys, p: int, time: nat -> real, r: Sys)
    requires Running(s.st, p) && Exec(s.st, p) in s.st.tcbs
  {
    var t := Exec(s.st, p);
    var joined := s.st.tcbs[t].joined;
    && Follows(s, CloseRun(p, t.tid, |joined|, time), r)
    && p in r.st.programs && r.st.programs[p].exec == None && Is(r.st, t, EXIT)
    && r.st.programs[p].ready == s.st.programs[p].ready + joined
  }

  /** The critical sections of `change_exec_tcb`. */
  function ChangeRun(p: int, running: bool, k: nat, time: nat -> real): seq<Action> {
    (if running then [Action(Preempts(p), time(k + 1))] else []) + [Action(Resumes(p), time(k + 2))]
  }

  /** The critical sections of one scheduling decision. */
  ghost function SwitchRun(st: State, p: int, k: nat, time: nat -> real): seq<Action>
    requires CanScan(st, p)
  {
    if ChosenPos(st, p, time(k)) == -1 then [Action(Schedules(p), time(k))]
    else [Action(Schedules(p), time(k))] + ChangeRun(p, Running(st, p), k, time)
  }

  /** SJF: the chosen thread runs, a displaced one goes to the end of the ready list, nobody else moves. */
  ghost predicate Switched(st: State, p: int, now: real, r: State)
    requires CanScan(st, p)
  {
    var pos := ChosenPos(st, p, now);
    var ready := st.programs[p].ready;
    && p in r.programs
    && (pos == -1 ==> r.programs[p].exec == st.programs[p].exec && r.programs[p].ready == ready)
    && (pos != -1 ==> r.programs[p].exec == Some(ready[pos]))
    && (pos != -1 ==> r.programs[p].ready == Remove(ready + Slot(st.programs[p].exec), ready[pos]))
  }

  /** The choice is the first ready thread of least estimate, and it displaces a running thread only with a strictly
      smaller one. */
  lemma SjfChoice(st: State, p: int, now: real)
    requires CanScan(st, p)
    ensures var pos := ChosenPos(st, p, now);
      var e := Estimates(st, st.programs[p].ready);
      var bound := Bound(st, p, now);
      && (pos == -1 <==> forall i :: 0 <= i < |e| ==> bound <= e[i])
      && (pos != -1 ==> e[pos] < bound)
      && (pos != -1 ==> forall i :: 0 <= i < |e| ==> e[pos] <= e[i])
      && (pos != -1 ==> forall i :: 0 <= i < pos ==> e[pos] < e[i])
  {
    BestPosIsFirstLeast(Estimates(st, st.programs[p].ready), Bound(st, p, now));
  }

  /** Ready and running threads are conserved by the switch. */
  lemma SwitchConserves(st: State, p: int, now: real, r: State)
    requires CanScan(st, p) && Switched(st, p, now, r)
    ensures multiset(r.programs[p].ready) + multiset(Slot(r.programs[p].exec))
         == multiset(st.programs[p].ready) + multiset(Slot(st.programs[p].exec))
  {
    var pos := ChosenPos(st, p, now);
    if pos != -1 {
      var ready := st.programs[p].ready;
      assert (ready + Slot(st.programs[p].exec))[pos] == ready[pos];
      RemoveConserves(ready + Slot(st.programs[p].exec), ready[pos]);
    }
  }

  lemma ExecSocket(s: Sys, run: seq<Action>, r: Sys, p: int)
    requires Inv(s) && Follows(s, run, r) && Running(r.st, p)
    ensures Exec(r.st, p).socket == p && Is(r.st, Exec(r.st, p), EXEC)
  {
    RunInv(s, run);
    ExecIs(r.st, p);
  }

  lemma NextIsReady(s: Sys, run: seq<Action>, r: Sys, p: int, next: Id)
    requires Inv(s) && Follows(s, run, r) && p in r.pc && r.pc[p] == Resuming(next)
    ensures next.socket == p && Is(r.st, next, READY)
  {
    RunInv(s, run);
    assert PhaseOk(r.st, r.pc[p], p);
  }

  lemma NoWorkNoCounter(s: Sys, p: int)
    requires Inv(s) && p in s.st.programs && s.st.programs[p].ready == [] && s.st.programs[p].wakeup == []
    ensures s.st.programs[p].counter == 0
  {
    assert ProgramCounted(s.st.programs[p]);
  }

  lemma WorkMeansCounter(s: Sys, p: int)
    requires Inv(s) && p in s.st.programs
    ensures s.st.programs[p].ready != [] || s.st.programs[p].wakeup != [] ==> s.st.programs[p].counter > 0
  {
    assert ProgramCounted(s.st.programs[p]);
  }

  /** `run` led from `s` to `at`, where the scan chose, and the switch led from there to `r`. */
  ghost predicate Dispatched(s: Sys, run: seq<Action>, at: Sys, p: int, k: nat, time: nat -> real, r: Sys) {
    && Follows(s, run, at) && CanScan(at.st, p)
    && Follows(s, run + SwitchRun(at.st, p, k, time), r)
    && Switched(at.st, p, time(k), r.st)
  }

  lemma ReadyToUnjoin(s: Sys, run: seq<Action>, r: Sys, p: int, k: nat, now: real)
    requires Inv(s) && Follows(s, run, r) && Running(r.st, p) && Exec(r.st, p) in r.st.tcbs
    requires p in r.pc && r.pc[p] == Closing(k) && k < |r.st.tcbs[Exec(r.st, p)].joined| && r.clock <= now < FLT_MAX
    ensures Exec(r.st, p).socket == p && r.st.tcbs[Exec(r.st, p)].joined[k].socket == p
    ensures Safe(r, Action(Unjoins(p), now))
      && Follows(s, run + [Action(Unjoins(p), now)], Apply(r, Action(Unjoins(p), now)))
  {
    FollowStep(s, run, r, Action(Unjoins(p), now));
    RunInv(s, run);
    ExecIs(r.st, p);
    UnjoinSafe(r, p, k);
  }

  /** Going to sleep on a semaphore just taken down is what `suse_wait` does below zero. */
  lemma WaitIsBlock(st: State, p: int, name: string, now: real)
    requires Running(st, p) && Known(st, Exec(st, p)) && name in st.sems && st.sems[name].value <= 0
    ensures var sem := st.sems[name].(value := st.sems[name].value - 1);
      var down := st.(sems := st.sems[name := sem]);
      var asleep := down.(sems := down.sems[name := sem.(blocked := sem.blocked + [Exec(st, p)])]);
      Known(asleep, Exec(st, p))
      && Move(asleep, Exec(st, p), BLOCKED, now) == Wait(st, p, Exec(st, p).tid, name, now)
  {
    hide Move;
    var sem := st.sems[name].(value := st.sems[name].value - 1);
    var asleep := sem.(blocked := sem.blocked + [Exec(st, p)]);
    assert st.sems[name := sem][name := asleep] == st.sems[name := asleep];
  }

  /** Each method is a call that no other scheduler thread interrupts; what any interleaving leaves of the loops of
      `wakeup_threads` and `unjoin_exec` is proved in SuseLoops, and of the choice and the switch in SuseProgress. */
  class Scheduler {
    const alpha: real
    const maxMultiprog: nat
    var tcbs: map<Id, Tcb>
    var programs: map<int, Program>
    var sems: map<string, Sem>
    var newList: seq<Id>
    var blockedList: seq<Id>
    var exitList: seq<Id>
    var newCounter: int
    var degree: int
    var available: int
    ghost var log: map<Id, Log>
    ghost var pc: map<int, Pc>
    ghost var lt: Lt
    ghost var clock: real

    ghost function St(): State
      reads this
    {
      State(alpha, maxMultiprog, tcbs, programs, sems, newList, blockedList, exitList, newCounter, degree, available,
        log)
    }

    ghost function Model(): Sys
      reads this
    {
      Sys(St(), pc, lt, clock)
    }

    ghost predicate Valid()
      reads this
    {
      Inv(Model())
    }

    constructor (alpha: real, maxMultiprog: nat, config: map<string, SemConfig>, now: real)
      requires ConfigOk(alpha, config) && now >= 0.0
      ensures Valid() && Model() == Start(alpha, maxMultiprog, config, now)
      ensures sems.Keys == config.Keys
      ensures forall n :: n in config ==> sems[n].value == config[n].init && sems[n].max == config[n].max
      ensures forall n :: n in config ==> sems[n].blocked == []
    {
      this.alpha := alpha;
      this.maxMultiprog := maxMultiprog;
      tcbs, programs := map[], map[];
      sems := map n | n in config :: Sem(config[n].init, config[n].max, []);
      newList, blockedList, exitList := [], [], [];
      newCounter, degree, available := 0, 0, maxMultiprog;
      log, pc, lt, clock := map[], map[], Free, now;
      new;
      StartInv(alpha, maxMultiprog, config, now);
    }

    /** `find_tcb_pos`: the first position of the thread, or -1. */
    static method FindTcbPos(list: seq<Id>, tid: int, socket: int) returns (pos: int)
      ensures pos == -1 ==> Id(socket, tid) !in list
      ensures pos != -1 ==> 0 <= pos < |list| && list[pos] == Id(socket, tid) && Id(socket, tid) !in list[..pos]
    {
      var i := 0;
      while i < |list|
        invariant 0 <= i <= |list|
        invariant Id(socket, tid) !in list[..i]
      {
        if list[i].tid == tid && list[i].socket == socket {
          return i;
        }
        i := i + 1;
      }
      return -1;
    }

    /** `list_remove` at the position `find_tcb_pos` returns. */
    static method RemoveTcb(list: seq<Id>, t: Id) returns (rest: seq<Id>)
      requires t in list
      ensures rest == Remove(list, t)
    {
      var pos := FindTcbPos(list, t.tid, t.socket);
      RemoveAt(list, t, pos);
      rest := list[..pos] + list[pos + 1..];
    }

    /** `sem_wait(&available_multiprog)`: returns only with a slot to take. */
    method IncreaseMultiprog()
      requires available > 0
      modifies this`available, this`degree
      ensures available == old(available) - 1 && degree == old(degree) + 1
    {
      available := available - 1;
      degree := degree + 1;
    }

    method DecreaseMultiprog()
      modifies this`available, this`degree
      ensures available == old(available) + 1 && degree == old(degree) - 1
    {
      available := available + 1;
      degree := degree - 1;
    }

    method ProgramRemoveTcb(t: Id, state: ThreadState)
      requires Known(St(), t)
      requires state == READY ==> t in programs[t.socket].ready && programs[t.socket].counter > 0
      modifies this`programs
      ensures var p := old(programs[t.socket]);
        programs == old(programs)[t.socket :=
          if state == READY then p.(ready := Remove(p.ready, t), counter := p.counter - 1)
          else if state == EXEC then p.(exec := None) else p]
    {
      var p := programs[t.socket];
      if state == READY {
        var rest := RemoveTcb(p.ready, t);
        programs := programs[t.socket := p.(ready := rest, counter := p.counter - 1)];
      } else if state == EXEC {
        programs := programs[t.socket := p.(exec := None)];
      }
    }

    method ProgramAddTcb(t: Id, state: ThreadState)
      requires Known(St(), t)
      modifies this`programs
      ensures var p := old(programs[t.socket]);
        programs == old(programs)[t.socket :=
          if state == READY then p.(ready := p.ready + [t], counter := p.counter + 1)
          else if state == EXEC then p.(exec := Some(t)) else p]
    {
      var p := programs[t.socket];
      if state == READY {
        programs := programs[t.socket := p.(ready := p.ready + [t], counter := p.counter + 1)];
      } else if state == EXEC {
        programs := programs[t.socket := p.(exec := Some(t))];
      }
    }

    /** First half of `move_tcb_to`. */
    method TakeOut(t: Id, ghost to: ThreadState)
      requires MoveSafe(St(), t, to)
      modifies this`newList, this`blockedList, this`programs, this`degree, this`available
      ensures St() == Leave(old(St()), t)
    {
      match tcbs[t].state {
        case NEW => newList := RemoveTcb(newList, t);
        case READY => ProgramRemoveTcb(t, READY); DecreaseMultiprog();
        case EXEC => ProgramRemoveTcb(t, EXEC); DecreaseMultiprog();
        case BLOCKED => blockedList := RemoveTcb(blockedList, t); DecreaseMultiprog();
        case EXIT =>
      }
    }

    /** Second half of `move_tcb_to`. */
    method PutIn(t: Id, to: ThreadState)
      requires Known(St(), t) && (Active(to) ==> available > 0)
      modifies this`newList, this`blockedList, this`exitList, this`programs, this`degree, this`available
      ensures St() == Enter(old(St()), t, to)
    {
      match to {
        case NEW => newList := newList + [t];
        case READY => ProgramAddTcb(t, READY); IncreaseMultiprog();
        case EXEC => ProgramAddTcb(t, EXEC); IncreaseMultiprog();
        case BLOCKED => blockedList := blockedList + [t]; IncreaseMultiprog();
        case EXIT => exitList := exitList + [t];
      }
    }

    method MoveTcbTo(t: Id, to: ThreadState, now: real)
      requires Known(St(), t) && (tcbs[t].state == to || MoveSafe(St(), t, to))
      modifies this`tcbs, this`newList, this`blockedList, this`exitList, this`programs, this`degree, this`available,
        this`log
      ensures St() == Move(old(St()), t, to, now)
    {
      var tcb := tcbs[t];
      if tcb.state == to {
        return;
      }
      TakeOut(t, to);
      PutIn(t, to);
      tcbs := tcbs[t := tcb.(state := to, time := Switch(tcb.time, tcb.state, to, now))];
      log := log[t := log[t] + [Event(to, now)]];
    }

    /** `create_program`. */
    method CreateProgram(p: int, now: real)
      modifies this`programs, this`pc, this`clock
      ensures Model() == Apply(old(Model()), Action(Connecting(p), now))
    {
      programs := programs[p := Program([], None, 0, [], false)];
      pc, clock := pc[p := Idle], now;
    }

    /** `create_tcb`; thread 0 then waits at main_loaded_mutex. */
    method CreateThread(p: int, tid: int, now: real)
      requires Safe(Model(), Action(Creating(p, tid), now))
      modifies this
      ensures Model() == Apply(old(Model()), Action(Creating(p, tid), now))
      ensures newList == old(newList) + [Id(p, tid)] && newCounter == old(newCounter) + 1
      ensures Is(St(), Id(p, tid), NEW)
    {
      CreatingIs(Model(), p, tid, now);
      hide Safe, Apply;
      var t := Id(p, tid);
      tcbs := tcbs[t := Tcb(NEW, NewBurst(now), [])];
      log := log[t := [Event(NEW, now)]];
      newList := newList + [t];
      newCounter := newCounter + 1;
      pc, clock := if tid == 0 then pc[p := Loading] else pc, now;
    }

    /** SUSE_CREATE of thread 0, once the long-term scheduler has released main_loaded_mutex. */
    method LoadMain(p: int, now: real)
      requires Safe(Model(), Action(LoadingMain(p), now))
      modifies this
      ensures Model() == Apply(old(Model()), Action(LoadingMain(p), now))
    {
      MoveTcbTo(Id(p, 0), EXEC, now);
      pc, clock := pc[p := Idle], now;
    }

    /** `sem_wait(&new_counter)` has returned: `get_new_tcb`. */
    method GetNewTcb(now: real) returns (current: Id)
      requires Safe(Model(), Action(LtFetch, now))
      modifies this`newCounter, this`lt, this`clock
      ensures Model() == Apply(old(Model()), Action(LtFetch, now)) && lt == Fetched(current)
    {
      newCounter := newCounter - 1;
      current := newList[0];
      lt, clock := Fetched(current), now;
    }

    /** `check_multiprog`: takes a slot and gives it back. */
    method CheckMultiprog(now: real)
      requires Safe(Model(), Action(LtCheck, now)) && available > 0
      modifies this`available, this`lt, this`clock
      ensures Model() == Apply(old(Model()), Action(LtCheck, now))
    {
      available := available - 1;
      available := available + 1;
      lt, clock := Checked(lt.t), now;
    }

    method Admission(current: Id, now: real)
      requires Safe(Model(), Action(LtMove, now)) && lt.t == current
      modifies this
      ensures Model() == Apply(old(Model()), Action(LtMove, now))
    {
      MoveTcbTo(current, READY, now);
      if current.tid == 0 {
        programs := programs[current.socket := programs[current.socket].(mainLoaded := true)];
      }
      lt, clock := Free, now;
    }

    method SuseWait(p: int, tid: int, name: string, now: real)
      requires Safe(Model(), Action(Waits(p, tid, name), now))
      modifies this
      ensures Model() == Apply(old(Model()), Action(Waits(p, tid, name), now))
      ensures name in sems && sems[name].max == old(sems[name].max)
      ensures sems[name].value == old(sems[name].value) - if old(Exec(St(), p)).tid == tid then 1 else 0
    {
      hide MoveSafe, Move, Switch;
      var exec := programs[p].exec.value;
      ghost var st := St();
      clock := now;
      if exec.tid == tid {
        var sem := sems[name].(value := sems[name].value - 1);
        sems := sems[name := sem];
        if sem.value < 0 {
          StillSafe(st, St(), exec, BLOCKED);
          WaitIsBlock(st, p, name, now);
          Block(name, exec, now);
        }
      }
    }

    method Block(name: string, exec: Id, now: real)
      requires name in sems && MoveSafe(St(), exec, BLOCKED)
      modifies this`sems, this`tcbs, this`newList, this`blockedList, this`exitList, this`programs
      modifies this`degree, this`available, this`log
      ensures var sem := old(sems[name]);
        && St() == Move(old(St()).(sems := old(sems)[name := sem.(blocked := sem.blocked + [exec])]), exec, BLOCKED,
             now)
        && sems == old(sems)[name := sem.(blocked := sem.blocked + [exec])]
    {
      sems := sems[name := sems[name].(blocked := sems[name].blocked + [exec])];
      MoveTcbTo(exec, BLOCKED, now);
    }

    method SuseSignal(p: int, tid: int, name: string, now: real)
      requires Safe(Model(), Action(Signals(p, tid, name), now))
      modifies this
      ensures Model() == Apply(old(Model()), Action(Signals(p, tid, name), now))
      ensures name in sems && sems[name].max == old(sems[name].max)
      ensures sems[name].value == old(sems[name].value)
        + if old(Exec(St(), p)).tid == tid && old(sems[name].value < sems[name].max) then 1 else 0
    {
      clock := now;
      if programs[p].exec.value.tid == tid {
        if sems[name].value < sems[name].max {
          sems := sems[name := sems[name].(value := sems[name].value + 1)];
        }
        if sems[name].value <= 0 {
          Wakeup(name);
        }
      }
    }

    /** The head of the queue goes to the wakeup list of its own program. */
    method Wakeup(name: string)
      requires name in sems && sems[name].blocked != [] && sems[name].blocked[0].socket in programs
      modifies this`sems, this`programs
      ensures var sem := old(sems[name]);
        St() == SuseState.NotifyWakeup(old(St()).(sems := old(sems)[name := sem.(blocked := sem.blocked[1..])]),
          sem.blocked[0])
    {
      var tcb := sems[name].blocked[0];
      sems := sems[name := sems[name].(blocked := sems[name].blocked[1..])];
      NotifyWakeup(tcb);
    }

    method NotifyWakeup(t: Id)
      requires t.socket in programs
      modifies this`programs
      ensures St() == SuseState.NotifyWakeup(old(St()), t)
    {
      var p := programs[t.socket];
      programs := programs[t.socket := p.(wakeup := p.wakeup + [t], counter := p.counter + 1)];
    }

    /** The critical section of `suse_join` that finds the thread: 0 finished, 1 joined, -1 not there yet. */
    method FindJoined(p: int, tid: int) returns (where: int)
      requires Placed(St()) && p in programs
      ensures where == 0 <==> Is(St(), Id(p, tid), EXIT)
      ensures where == 1 <==> Is(St(), Id(p, tid), READY) || Is(St(), Id(p, tid), BLOCKED)
      ensures where in {-1, 0, 1}
    {
      Contents(St());
      var pos := FindTcbPos(programs[p].ready, tid, p);
      if pos != -1 {
        assert programs[p].ready[pos] in programs[p].ready;
        return 1;
      }
      pos := FindTcbPos(exitList, tid, p);
      if pos != -1 {
        assert exitList[pos] in exitList;
        return 0;
      }
      pos := FindTcbPos(blockedList, tid, p);
      if pos != -1 {
        assert blockedList[pos] in blockedList;
        return 1;
      }
      return -1;
    }

    /** `exec` joins `u` and goes to sleep. */
    method Enlist(u: Id, exec: Id, now: real)
      requires u in tcbs && MoveSafe(St(), exec, BLOCKED)
      modifies this`tcbs, this`newList, this`blockedList, this`exitList, this`programs, this`degree, this`available,
        this`log
      ensures var tcb := old(tcbs[u]);
        St() == Move(old(St()).(tcbs := old(tcbs)[u := tcb.(joined := tcb.joined + [exec])]), exec, BLOCKED, now)
    {
      ghost var st := St();
      tcbs := tcbs[u := tcbs[u].(joined := tcbs[u].joined + [exec])];
      StillSafe(st, St(), exec, BLOCKED);
      MoveTcbTo(exec, BLOCKED, now);
    }

    /** One attempt of `suse_join`: false sends the caller to `wakeup_threads` and back to the start. */
    method SuseJoin(p: int, tid: int, now: real) returns (found: bool)
      requires Placed(St()) && Running(St(), p)
      requires Id(p, tid) in tcbs && tcbs[Id(p, tid)].state in {READY, BLOCKED, EXIT} ==>
        Safe(Model(), Action(Joins(p, tid), now))
      modifies this
      ensures found <==> old(Id(p, tid) in tcbs && tcbs[Id(p, tid)].state in {READY, BLOCKED, EXIT})
      ensures Model() == if found then Apply(old(Model()), Action(Joins(p, tid), now)) else old(Model())
    {
      hide MoveSafe, Switch, Move, Placed, Safe, Apply;
      var where := FindJoined(p, tid);
      if where == -1 {
        return false;
      }
      JoinIs(Model(), p, tid, now);
      if where == 1 {
        Enlist(Id(p, tid), programs[p].exec.value, now);
      }
      clock := now;
      return true;
    }

    /** The thread at position `i` of the wakeup list goes to READY. */
    method WakeAt(p: int, i: nat, now: real)
      requires p in programs && i < |programs[p].wakeup| && MoveSafe(St(), programs[p].wakeup[i], READY)
      modifies this`tcbs, this`newList, this`blockedList, this`exitList, this`programs, this`degree, this`available,
        this`log
      ensures var t := old(programs[p].wakeup[i]);
        St() == Move(old(St()).(programs := old(programs)[p := Taken(old(programs[p]), i)]), t, READY, now)
    {
      var w := programs[p].wakeup;
      ghost var st := St();
      programs := programs[p := programs[p].(wakeup := w[..i] + w[i + 1..])];
      StillSafe(st, St(), w[i], READY);
      MoveTcbTo(w[i], READY, now);
    }

    /** One round of the `wakeup_threads` loop. */
    method WakeRound(p: int, i: nat, now: real)
      requires Safe(Model(), Action(WakeNext(p), now)) && pc[p] == Waking(i)
      modifies this
      ensures Model() == Apply(old(Model()), Action(WakeNext(p), now))
      ensures p in old(programs) && i < |old(programs[p].wakeup)|
      ensures programs == old(programs)[p := Woken(old(programs[p]), i)]
      ensures pc == old(pc)[p := Waking(i + 1)] && clock == now
    {
      hide MoveSafe, Switch, Move, Safe, Apply, Is, Taken, Woken;
      WakeNextIs(Model(), p, now);
      WakeAt(p, i, now);
      programs := programs[p := programs[p].(counter := programs[p].counter - 1)];
      pc, clock := pc[p := Waking(i + 1)], now;
    }

    /** The loop of `wakeup_threads`, holding wakeup_mutex. */
    method WakeLoop(p: int, time: nat -> real, ghost m: Sys, ghost run: seq<Action>)
      requires Inv(m) && Follows(m, run, Model()) && Ticks(time, m.clock) && clock == time(0)
      requires p in programs && p in pc && pc[p] == Waking(0)
      modifies this
      ensures p in programs && p in pc && pc[p] == Waking((|old(programs[p].wakeup)| + 1) / 2)
      ensures Follows(m, run + Rounds(WakeNext(p), (|old(programs[p].wakeup)| + 1) / 2, time), Model())
      ensures programs[p].wakeup == Odds(old(programs[p].wakeup))
      ensures programs[p].ready == old(programs[p].ready) + Evens(old(programs[p].wakeup))
      ensures clock <= time(|old(programs[p].wakeup)|)
    {
      ghost var w, r := programs[p].wakeup, programs[p].ready;
      assert run + Rounds(WakeNext(p), 0, time) == run && r + Evens(w)[..0] == r;
      var i := 0;
      while i < |programs[p].wakeup|
        invariant p in programs && p in pc && pc[p] == Waking(i) && 2 * i <= |w| + 1
        invariant Follows(m, run + Rounds(WakeNext(p), i, time), Model())
        invariant WakeProgress(w, i, programs[p].wakeup)
        invariant i <= |Evens(w)| && programs[p].ready == r + Evens(w)[..i]
        invariant clock <= time(i)
        decreases |programs[p].wakeup| - i
      {
        WakeProgressStep(w, i, programs[p].wakeup, r);
        RoundsExtend(run, WakeNext(p), i, time);
        FollowStep(m, run + Rounds(WakeNext(p), i, time), Model(), Action(WakeNext(p), time(i)));
        WakeRound(p, i, time(i));
        i := i + 1;
      }
      WakeProgressDone(w, i, programs[p].wakeup);
    }

    /** A step that only changes where the program's scheduler stands. */
    ghost method Turn(a: Action, m: Sys, run: seq<Action>)
      requires Inv(m) && Follows(m, run, Model()) && Guard(Model(), a)
      requires a.step.WakeBegins? || a.step.WakeEnds? || a.step.Closes?
      modifies this`pc, this`clock
      ensures Follows(m, run + [a], Model()) && clock == a.now
      ensures pc == if a.step.WakeBegins? then old(pc)[a.step.p := Waking(0)]
                    else if a.step.WakeEnds? then old(pc)[a.step.p := Idle]
                    else if Exec(St(), a.step.p).tid == a.step.tid then old(pc)[a.step.p := Closing(0)] else old(pc)
    {
      FollowStep(m, run, Model(), a);
      pc, clock := Apply(Model(), a).pc, a.now;
    }

    /** `wakeup_threads`: every second thread of the wakeup list becomes READY. */
    method WakeupThreads(p: int, time: nat -> real) returns (woke: bool)
      requires Valid() && AtPc(Model(), p, Idle) && p in programs && Ticks(time, clock)
      modifies this
      ensures Valid() && AtPc(Model(), p, Idle) && p in programs
      ensures woke <==> old(programs[p].wakeup) != []
      ensures !woke ==> Model() == old(Model())
      ensures woke ==> Follows(old(Model()), WakeRun(p, |old(programs[p].wakeup)|, time), Model())
      ensures programs[p].wakeup == Odds(old(programs[p].wakeup))
      ensures programs[p].ready == old(programs[p].ready) + Evens(old(programs[p].wakeup))
      ensures clock == if woke then time(|old(programs[p].wakeup)|) else old(clock)
    {
      hide Inv, CanRun, After;
      ghost var m := Model();
      if |programs[p].wakeup| == 0 {
        assert programs[p].ready + Evens([]) == programs[p].ready;
        return false;
      }
      ghost var n := |programs[p].wakeup|;
      ghost var first := [Action(WakeBegins(p), time(0))];
      assert [] + first == first;
      FollowNone(m);
      Turn(Action(WakeBegins(p), time(0)), m, []);
      WakeLoop(p, time, m, first);
      Turn(Action(WakeEnds(p), time(n)), m, first + Rounds(WakeNext(p), (n + 1) / 2, time));
      FollowInv(m, WakeRun(p, n, time), Model());
      return true;
    }

    /** One round of the `unjoin_exec` loop. */
    method Unjoin(p: int, k: nat, now: real)
      requires Safe(Model(), Action(Unjoins(p), now)) && pc[p] == Closing(k)
      requires Exec(St(), p).socket == p && tcbs[Exec(St(), p)].joined[k].socket == p
      modifies this
      ensures Model() == Apply(old(Model()), Action(Unjoins(p), now))
      ensures Running(St(), p) && Exec(St(), p) == old(Exec(St(), p))
      ensures Exec(St(), p) in tcbs && tcbs[Exec(St(), p)].joined == old(tcbs[Exec(St(), p)].joined)
      ensures programs[p].ready == old(programs[p].ready) + [old(tcbs[Exec(St(), p)].joined[k])]
      ensures pc == old(pc)[p := Closing(k + 1)] && clock == now
    {
      hide Safe, Apply, Move, MoveSafe, Switch;
      UnjoinStep(Model(), p, now);
      var tcb := tcbs[programs[p].exec.value].joined[k];
      MoveToReady(St(), tcb, now);
      MoveFrame(St(), tcb, READY, now);
      MoveTcbTo(tcb, READY, now);
      pc, clock := pc[p := Closing(k + 1)], now;
    }

    /** `unjoin_exec`: every thread that joined the running one becomes READY, in joining order. */
    method UnjoinExec(p: int, time: nat -> real, ghost m: Sys, ghost run: seq<Action>)
      requires Inv(m) && Follows(m, run, Model()) && Ticks(time, m.clock) && clock <= time(0)
      requires Running(St(), p) && Exec(St(), p) in tcbs && p in pc && pc[p] == Closing(0)
      modifies this
      ensures Running(St(), p) && Exec(St(), p) == old(Exec(St(), p))
      ensures var joined := old(tcbs[Exec(St(), p)].joined);
        && p in pc && pc[p] == Closing(|joined|)
        && Exec(St(), p) in tcbs && tcbs[Exec(St(), p)].joined == joined
        && Follows(m, run + Rounds(Unjoins(p), |joined|, time), Model())
        && programs[p].ready == old(programs[p].ready) + joined
        && clock <= time(|joined|)
    {
      hide Inv, CanRun, After, Apply, Guard;
      ghost var joined, r := tcbs[Exec(St(), p)].joined, programs[p].ready;
      ghost var exec := Exec(St(), p);
      assert run + Rounds(Unjoins(p), 0, time) == run && r + joined[..0] == r;
      var i := 0;
      while i < |tcbs[programs[p].exec.value].joined|
        invariant Running(St(), p) && Exec(St(), p) == exec && exec in tcbs && tcbs[exec].joined == joined
        invariant 0 <= i <= |joined| && p in pc && pc[p] == Closing(i)
        invariant Follows(m, run + Rounds(Unjoins(p), i, time), Model())
        invariant programs[p].ready == r + joined[..i]
        invariant clock <= time(i)
      {
        RoundsExtend(run, Unjoins(p), i, time);
        TakeExtend(r, joined, i);
        ReadyToUnjoin(m, run + Rounds(Unjoins(p), i, time), Model(), p, i, time(i));
        Unjoin(p, i, time(i));
        i := i + 1;
      }
      assert joined[..|joined|] == joined;
    }

    /** `suse_close` of the running thread; any other thread is refused. */
    method SuseClose(p: int, tid: int, time: nat -> real)
      requires Valid() && IdleExec(Model(), p) && Exec(St(), p) in tcbs && Ticks(time, clock)
      modifies this
      ensures Valid()
      ensures if old(Exec(St(), p)).tid == tid then Closed(old(Model()), p, time, Model())
              else Model() == old(Model()).(clock := time(0))
    {
      hide Inv, CanRun, After, Safe;
      if programs[p].exec.value.tid == tid {
        CloseExec(p, time);
      } else {
        ghost var a := Action(Closes(p, tid), time(0));
        ghost var m := Model();
        FirstStep(m, a);
        clock := time(0);
        FollowInv(m, [a], Model());
      }
    }

    method CloseExec(p: int, time: nat -> real)
      requires Valid() && IdleExec(Model(), p) && Exec(St(), p) in tcbs && Ticks(time, clock)
      modifies this
      ensures Valid() && Closed(old(Model()), p, time, Model())
    {
      hide Inv, CanRun, After, Safe;
      ghost var m := Model();
      ghost var tid := programs[p].exec.value.tid;
      ghost var first := [Action(Closes(p, tid), time(0))];
      assert [] + first == first;
      FollowNone(m);
      Turn(Action(Closes(p, tid), time(0)), m, []);
      var n := |tcbs[programs[p].exec.value].joined|;
      UnjoinExec(p, time, m, first);
      Finish(p, time(n), m, first + Rounds(Unjoins(p), n, time));
      FollowInv(m, CloseRun(p, tid, n, time), Model());
    }

    /** The running thread leaves for good. */
    method Finish(p: int, now: real, ghost m: Sys, ghost run: seq<Action>)
      requires Inv(m) && Follows(m, run, Model()) && Guard(Model(), Action(Finishes(p), now))
      modifies this
      ensures Follows(m, run + [Action(Finishes(p), now)], Model())
      ensures p in programs && programs[p].exec == None && AtPc(Model(), p, Idle)
      ensures Is(St(), old(Exec(St(), p)), EXIT) && programs[p].ready == old(programs[p].ready)
    {
      hide Inv, CanRun, After, Guard, Safe, Apply, Move, MoveSafe, Switch;
      ghost var a := Action(Finishes(p), now);
      FollowStep(m, run, Model(), a);
      FinishIs(Model(), a, p);
      ExecSocket(m, run, Model(), p);
      MoveToExit(St(), programs[p].exec.value, now);
      MoveTcbTo(programs[p].exec.value, EXIT, now);
      pc, clock := pc[p := Idle], now;
    }

    /** The scan of `schedule_next_for`: a strict comparison over the ready list, in order. */
    method Scan(p: int, now: real) returns (pos: int, best: real)
      requires CanScan(St(), p)
      ensures pos == ChosenPos(St(), p, now)
      ensures best == if pos == -1 then Bound(St(), p, now) else Estimate(alpha, tcbs[programs[p].ready[pos]].time)
    {
      var exec := programs[p].exec;
      best := FLT_MAX;
      if exec.Some? {
        best := EstimateWith(alpha, tcbs[exec.value].time, now - tcbs[exec.value].time.execStart);
      }
      pos := -1;
      ghost var estimates := Estimates(St(), programs[p].ready);
      var i := 0;
      while i < |programs[p].ready|
        invariant 0 <= i <= |estimates|
        invariant pos == BestPos(estimates[..i], Bound(St(), p, now))
        invariant best == if pos == -1 then Bound(St(), p, now) else estimates[pos]
      {
        assert Known(St(), programs[p].ready[i]);
        var estimate := Estimate(alpha, tcbs[programs[p].ready[i]].time);
        assert estimates[..i + 1][..i] == estimates[..i];
        if estimate < best {
          best := estimate;
          pos := i;
        }
        i := i + 1;
      }
      assert estimates[..i] == estimates;
    }

    /** The first critical section of `schedule_next_for`. */
    method ChooseNext(p: int, now: real) returns (pos: int)
      requires Safe(Model(), Action(Schedules(p), now))
      modifies this`tcbs, this`log, this`pc, this`clock
      ensures Model() == Apply(old(Model()), Action(Schedules(p), now))
      ensures CanScan(old(St()), p) && pos == ChosenPos(old(St()), p, now)
      ensures programs == old(programs) && clock == now
      ensures pc == old(pc)[p := if pos == -1 then Idle
                                 else if Running(St(), p) then Preempting(programs[p].ready[pos])
                                 else Resuming(programs[p].ready[pos])]
    {
      hide Safe, Apply, Switch, Estimate, Estimates, Bound, BestPos;
      ScheduleIs(Model(), p, now);
      var best;
      pos, best := Scan(p, now);
      ghost var running := Running(St(), p);
      if pos != -1 {
        var t := programs[p].ready[pos];
        assert Known(St(), t);
        tcbs := tcbs[t := tcbs[t].(time := tcbs[t].time.(lastEstimate := best))];
        pc := pc[p := if running then Preempting(t) else Resuming(t)];
      } else {
        var t := programs[p].exec.value;
        var kept := Switch(tcbs[t].time, EXEC, EXEC, now);
        tcbs := tcbs[t := tcbs[t].(time := kept.(lastEstimate := best))];
        log := log[t := log[t] + [Event(EXEC, now)]];
        pc := pc[p := Idle];
      }
      clock := now;
    }

    /** `change_exec_tcb`, its first move. */
    method Preempt(p: int, now: real)
      requires Safe(Model(), Action(Preempts(p), now)) && Exec(St(), p).socket == p && Is(St(), Exec(St(), p), EXEC)
      modifies this
      ensures Model() == Apply(old(Model()), Action(Preempts(p), now))
      ensures p in programs && programs[p].exec == None
        && programs[p].ready == old(programs[p].ready + [programs[p].exec.value])
      ensures pc == old(pc)[p := Resuming(old(pc[p].next))] && clock == now
    {
      hide Safe, Apply, Move, MoveSafe, Switch;
      PreemptIs(Model(), p, now);
      ExecToReady(St(), programs[p].exec.value, now);
      MoveTcbTo(programs[p].exec.value, READY, now);
      pc, clock := pc[p := Resuming(pc[p].next)], now;
    }

    /** `change_exec_tcb`, its second move. */
    method Resume(p: int, next: Id, now: real)
      requires Safe(Model(), Action(Resumes(p), now)) && pc[p] == Resuming(next) && next.socket == p
        && Is(St(), next, READY)
      modifies this
      ensures Model() == Apply(old(Model()), Action(Resumes(p), now))
      ensures p in programs && programs[p].exec == Some(next)
        && programs[p].ready == old(Remove(programs[p].ready, next))
      ensures pc == old(pc)[p := Idle] && clock == now
    {
      hide Safe, Apply, Move, MoveSafe, Switch;
      ResumeIs(Model(), p, now);
      ReadyToExec(St(), next, now);
      MoveTcbTo(next, EXEC, now);
      pc, clock := pc[p := Idle], now;
    }

    /** `change_exec_tcb`. */
    method ChangeExecTcb(p: int, next: Id, k: nat, time: nat -> real, ghost m: Sys, ghost run: seq<Action>)
      requires Inv(m) && Follows(m, run, Model()) && Ticks(time, m.clock) && clock <= time(k)
      requires p in programs && p in pc && pc[p] == if programs[p].exec.Some? then Preempting(next) else Resuming(next)
      modifies this
      ensures p in programs && AtPc(Model(), p, Idle) && programs[p].exec == Some(next)
      ensures programs[p].ready == Remove(old(programs[p].ready + Slot(programs[p].exec)), next)
      ensures Follows(m, run + ChangeRun(p, old(programs[p].exec).Some?, k, time), Model())
    {
      hide Inv, CanRun, After, Apply, Remove;
      ghost var done := run;
      if programs[p].exec.Some? {
        ghost var a := Action(Preempts(p), time(k + 1));
        ExecSocket(m, run, Model(), p);
        FollowStep(m, run, Model(), a);
        Preempt(p, time(k + 1));
        done := run + [a];
      } else {
        assert programs[p].ready + Slot(programs[p].exec) == programs[p].ready;
      }
      ghost var b := Action(Resumes(p), time(k + 2));
      NextIsReady(m, done, Model(), p, next);
      FollowStep(m, done, Model(), b);
      Resume(p, next, time(k + 2));
      assert done + [b] == run + ChangeRun(p, old(programs[p].exec).Some?, k, time);
    }

    /** The rest of `schedule_next_for`, once there is a thread to run. */
    method Dispatch(p: int, k: nat, time: nat -> real, ghost m: Sys, ghost run: seq<Action>)
      requires Inv(m) && Follows(m, run, Model()) && Ticks(time, m.clock) && clock <= time(k)
      requires AtPc(Model(), p, Idle) && p in programs && (programs[p].exec.Some? || programs[p].ready != [])
      modifies this
      ensures CanScan(old(St()), p)
      ensures Follows(m, run + SwitchRun(old(St()), p, k, time), Model())
      ensures Switched(old(St()), p, time(k), St()) && programs[p].exec.Some? && AtPc(Model(), p, Idle)
    {
      hide Inv, CanRun, After;
      ghost var choice := [Action(Schedules(p), time(k))];
      FollowStep(m, run, Model(), choice[0]);
      var pos := ChooseNext(p, time(k));
      if pos != -1 {
        ChangeExecTcb(p, programs[p].ready[pos], k, time, m, run + choice);
        RunAssoc(run, choice, ChangeRun(p, old(programs[p].exec).Some?, k, time));
      }
    }

    /** `schedule_next_for`: None is the wait in `wait_for_threads`; otherwise the reply names the running thread.
        `at` is the state in which the choice is made. */
    method ScheduleNextFor(p: int, time: nat -> real) returns (reply: Option<Id>, ghost at: Sys)
      requires Valid() && AtPc(Model(), p, Idle) && p in programs && Ticks(time, clock)
      modifies this
      ensures Valid() && AtPc(Model(), p, Idle) && p in programs
      ensures reply.None? <==> old(programs[p].exec.None? && programs[p].ready == [] && programs[p].wakeup == [])
      ensures reply.None? <==> old(programs[p].exec.None? && programs[p].counter == 0)
      ensures reply.None? ==> Model() == old(Model())
      ensures reply.Some? ==> programs[p].exec == reply
      ensures old(programs[p].exec.Some? || programs[p].ready != []) ==>
        Dispatched(old(Model()), [], at, p, 0, time, Model())
      ensures reply.Some? && old(programs[p].exec.None? && programs[p].ready == []) ==>
        var n := |old(programs[p].wakeup)|; Dispatched(old(Model()), WakeRun(p, n, time), at, p, n, time, Model())
    {
      hide Inv, CanRun, After;
      ghost var m := Model();
      at := m;
      FollowNone(m);
      if |programs[p].ready| == 0 && programs[p].exec.None? {
        var n := |programs[p].wakeup|;
        var woke := WakeupThreads(p, time);
        if !woke {
          NoWorkNoCounter(m, p);
          return None, at;
        }
        at := Model();
        ghost var run := WakeRun(p, n, time);
        Dispatch(p, n, time, m, run);
        FollowInv(m, run + SwitchRun(at.st, p, n, time), Model());
        WorkMeansCounter(m, p);
      } else {
        Dispatch(p, 0, time, m, []);
        FollowInv(m, [] + SwitchRun(at.st, p, 0, time), Model());
        WorkMeansCounter(m, p);
      }
      reply := programs[p].exec;
    }
  }
}
