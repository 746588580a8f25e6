// The scheduler as a state machine: one short-term scheduler thread per program and the
// long-term scheduler, interleaving one critical section or one `move_tcb_to` at a time.
module SuseSystem {
  import opened Lists
  import opened SuseTiming
  import opened SuseState
  import opened SuseInvariant

  /** Where a program's short-term scheduler stands between two critical sections. */
  datatype Pc =
    | Idle                    // ready for the next client operation
    | Loading                 // SUSE_CREATE of thread 0, at main_loaded_mutex
    | Waking(i: nat)          // inside the wakeup_threads loop, holding wakeup_mutex
    | Closing(k: nat)         // unjoin_exec has released k threads
    | Preempting(next: Id)    // change_exec_tcb, before moving the running thread
    | Resuming(next: Id)      // change_exec_tcb, before moving the chosen thread

  datatype Lt = Free | Fetched(t: Id) | Checked(t: Id)

  datatype Sys = Sys(st: State, pc: map<int, Pc>, lt: Lt, clock: real)

  datatype Step =
    | Connecting(p: int)
    | Creating(p: int, tid: int)
    | LoadingMain(p: int)
    | LtFetch
    | LtCheck
    | LtMove
    | Waits(p: int, tid: int, name: string)
    | Signals(p: int, tid: int, name: string)
    | Joins(p: int, tid: int)
    | Closes(p: int, tid: int)
    | Unjoins(p: int)
    | Finishes(p: int)
    | WakeBegins(p: int)
    | WakeNext(p: int)
    | WakeEnds(p: int)
    | Schedules(p: int)
    | Preempts(p: int)
    | Resumes(p: int)

  /** A step and the clock reading of its critical section. */
  datatype Action = Action(step: Step, now: real)

  predicate AtPc(s: Sys, p: int, pc: Pc) {
    p in s.pc && s.pc[p] == pc
  }

  predicate IdleExec(s: Sys, p: int) {
    AtPc(s, p, Idle) && Running(s.st, p)
  }

  /** When the source, and a client that follows the protocol, take this step. */
  predicate Guard(s: Sys, a: Action) {
    && s.clock <= a.now < FLT_MAX
    && match a.step
      case Connecting(p) => p !in s.st.programs
      case Creating(p, tid) => AtPc(s, p, Idle) && Id(p, tid) !in s.st.tcbs && (tid == 0 || Id(p, 0) in s.st.tcbs)
      case LoadingMain(p) => AtPc(s, p, Loading) && p in s.st.programs && s.st.programs[p].mainLoaded
      case LtFetch => s.lt == Free && s.st.newCounter > 0
      case LtCheck => s.lt.Fetched? && s.st.available > 0
      case LtMove => s.lt.Checked?
      case Waits(p, tid, name) => IdleExec(s, p) && name in s.st.sems
      case Signals(p, tid, name) =>
        && IdleExec(s, p) && name in s.st.sems
        && (SignalWakes(s.st, p, tid, name) && s.st.sems[name].blocked != [] ==>
            var q := s.st.sems[name].blocked[0].socket; q in s.pc ==> !s.pc[q].Waking?)
      case Joins(p, tid) =>
        && IdleExec(s, p) && Exec(s.st, p).tid != tid
        && (Is(s.st, Id(p, tid), READY) || Is(s.st, Id(p, tid), BLOCKED) || Is(s.st, Id(p, tid), EXIT))
      case Closes(p, tid) => IdleExec(s, p)
      case Unjoins(p) =>
        && p in s.pc && s.pc[p].Closing? && Running(s.st, p) && Exec(s.st, p) in s.st.tcbs
        && s.pc[p].k < |s.st.tcbs[Exec(s.st, p)].joined|
      case Finishes(p) =>
        && p in s.pc && s.pc[p].Closing? && Running(s.st, p) && Exec(s.st, p) in s.st.tcbs
        && s.pc[p].k >= |s.st.tcbs[Exec(s.st, p)].joined|
      case WakeBegins(p) => AtPc(s, p, Idle)
      case WakeNext(p) => p in s.pc && s.pc[p].Waking? && p in s.st.programs && s.pc[p].i < |s.st.programs[p].wakeup|
      case WakeEnds(p) => p in s.pc && s.pc[p].Waking? && p in s.st.programs && s.pc[p].i >= |s.st.programs[p].wakeup|
      case Schedules(p) => AtPc(s, p, Idle) && p in s.st.programs && (Running(s.st, p) || s.st.programs[p].ready != [])
      case Preempts(p) => p in s.pc && s.pc[p].Preempting?
      case Resumes(p) => p in s.pc && s.pc[p].Resuming?
  }

  /** A move that finds its thread, blocks on no semaphore, overwrites no exec slot and is a legal change of state. */
  ghost predicate MoveSafe(st: State, t: Id, to: ThreadState) {
    && Known(st, t)
    && var from := st.tcbs[t].state;
    && from != to && LegalChange(from, to)
    && (from == NEW ==> t in st.newList)
    && (from == READY ==> t in st.programs[t.socket].ready && st.programs[t.socket].counter > 0)
    && (from == EXEC ==> st.programs[t.socket].exec == Some(t))
    && (from == BLOCKED ==> t in st.blockedList)
    && st.available >= 0 && (from == NEW ==> st.available > 0)
    && (to == EXEC ==> st.programs[t.socket].exec == None)
  }

  /** Nothing in the step dereferences null, blocks while holding a lock, or corrupts a list. */
  ghost predicate Safe(s: Sys, a: Action) {
    match a.step
    case Connecting(p) => true
    case Creating(p, tid) => p in s.st.programs
    case LoadingMain(p) => MoveSafe(s.st, Id(p, 0), EXEC)
    case LtFetch => s.st.newList != []
    case LtCheck => s.lt.Fetched?
    case LtMove => s.lt.Checked? && MoveSafe(s.st, s.lt.t, READY) && Is(s.st, s.lt.t, NEW)
    case Waits(p, tid, name) => Running(s.st, p) && MoveSafe(s.st, Exec(s.st, p), BLOCKED) && name in s.st.sems
    case Signals(p, tid, name) => Running(s.st, p) && name in s.st.sems && SignalDefined(s.st, p, tid, name)
    case Joins(p, tid) => Running(s.st, p) && MoveSafe(s.st, Exec(s.st, p), BLOCKED) && Known(s.st, Id(p, tid))
    case Closes(p, tid) => Running(s.st, p)
    case Unjoins(p) =>
      && p in s.pc && s.pc[p].Closing? && Running(s.st, p) && Exec(s.st, p) in s.st.tcbs
      && var joined := s.st.tcbs[Exec(s.st, p)].joined;
      s.pc[p].k < |joined| && MoveSafe(s.st, joined[s.pc[p].k], READY) && Is(s.st, joined[s.pc[p].k], BLOCKED)
    case Finishes(p) => Running(s.st, p) && MoveSafe(s.st, Exec(s.st, p), EXIT)
    case WakeBegins(p) => true
    case WakeNext(p) =>
      && p in s.pc && s.pc[p].Waking? && p in s.st.programs
      && var w := s.st.programs[p].wakeup;
      && s.pc[p].i < |w| && MoveSafe(s.st, w[s.pc[p].i], READY) && Is(s.st, w[s.pc[p].i], BLOCKED)
      && w[s.pc[p].i].socket == p && s.st.programs[p].counter > 0
    case WakeEnds(p) => true
    case Schedules(p) => CanScan(s.st, p) && (ChosenPos(s.st, p, a.now) == -1 ==> Running(s.st, p))
    case Preempts(p) => Running(s.st, p) && MoveSafe(s.st, Exec(s.st, p), READY) && p in s.pc && s.pc[p].Preempting?
    case Resumes(p) => p in s.pc && s.pc[p].Resuming? && MoveSafe(s.st, s.pc[p].next, EXEC)
  }

  ghost function Apply(s: Sys, a: Action): Sys
    requires Safe(s, a)
  {
    var st := s.st;
    var t := s.(clock := a.now);
    match a.step
    case Connecting(p) => t.(st := Connect(st, p), pc := s.pc[p := Idle])
    case Creating(p, tid) =>
      t.(st := CreateTcb(st, Id(p, tid), a.now), pc := if tid == 0 then s.pc[p := Loading] else s.pc)
    case LoadingMain(p) => t.(st := Move(st, Id(p, 0), EXEC, a.now), pc := s.pc[p := Idle])
    case LtFetch => t.(st := st.(newCounter := st.newCounter - 1), lt := Fetched(st.newList[0]))
    case LtCheck => t.(lt := Checked(s.lt.t))
    case LtMove => t.(st := Admit(st, s.lt.t, a.now), lt := Free)
    case Waits(p, tid, name) => t.(st := Wait(st, p, tid, name, a.now))
    case Signals(p, tid, name) => t.(st := Signal(st, p, tid, name))
    case Joins(p, tid) => t.(st := Join(st, p, tid, a.now))
    case Closes(p, tid) => if Exec(st, p).tid == tid then t.(pc := s.pc[p := Closing(0)]) else t
    case Unjoins(p) =>
      var k := s.pc[p].k;
      t.(st := Move(st, st.tcbs[Exec(st, p)].joined[k], READY, a.now), pc := s.pc[p := Closing(k + 1)])
    case Finishes(p) => t.(st := Move(st, Exec(st, p), EXIT, a.now), pc := s.pc[p := Idle])
    case WakeBegins(p) => t.(pc := s.pc[p := Waking(0)])
    case WakeNext(p) => t.(st := WakeOne(st, p, s.pc[p].i, a.now), pc := s.pc[p := Waking(s.pc[p].i + 1)])
    case WakeEnds(p) => t.(pc := s.pc[p := Idle])
    case Schedules(p) =>
      var pos := ChosenPos(st, p, a.now);
      t.(st := Choose(st, p, a.now),
         pc := s.pc[p := if pos == -1 then Idle
                         else if Running(st, p) then Preempting(st.programs[p].ready[pos])
                         else Resuming(st.programs[p].ready[pos])])
    case Preempts(p) => t.(st := Move(st, Exec(st, p), READY, a.now), pc := s.pc[p := Resuming(s.pc[p].next)])
    case Resumes(p) => t.(st := Move(st, s.pc[p].next, EXEC, a.now), pc := s.pc[p := Idle])
  }

  // ---- runs ----

  datatype SemConfig = SemConfig(init: int, max: int)

  predicate ConfigOk(alpha: real, config: map<string, SemConfig>) {
    0.0 <= alpha <= 1.0 && forall n :: n in config ==> 0 <= config[n].init <= config[n].max && config[n].max >= 1
  }

  function Start(alpha: real, maxMultiprog: nat, config: map<string, SemConfig>, now: real): Sys {
    Sys(State(alpha, maxMultiprog, map[], map[], map n | n in config :: Sem(config[n].init, config[n].max, []),
              [], [], [], 0, 0, maxMultiprog, map[]),
        map[], Free, now)
  }

  ghost predicate CanRun(s: Sys, run: seq<Action>)
    decreases |run|, 0
  {
    if run == [] then true
    else
      var n := |run| - 1;
      CanRun(s, run[..n]) && Guard(After(s, run[..n]), run[n]) && Safe(After(s, run[..n]), run[n])
  }

  /** The system after a run from `s`. */
  ghost function After(s: Sys, run: seq<Action>): Sys
    requires CanRun(s, run)
    decreases |run|, 1
  {
    if run == [] then s else var n := |run| - 1; Apply(After(s, run[..n]), run[n])
  }

  // ---- the invariant ----

  /** What a blocked thread can be waiting for. */
  datatype Waker = OnSem(name: string) | OnWakeup(p: int) | OnJoin(u: Id)

  /** The threads that `w` still has to wake; a closing thread has already released the first k. */
  ghost function Queue(s: Sys, w: Waker): seq<Id> {
    match w
    case OnSem(name) => if name in s.st.sems then s.st.sems[name].blocked else []
    case OnWakeup(p) => if p in s.st.programs then s.st.programs[p].wakeup else []
    case OnJoin(u) =>
      if u !in s.st.tcbs || s.st.tcbs[u].state == EXIT then []
      else s.st.tcbs[u].joined[Released(s, u)..]
  }

  ghost function Released(s: Sys, u: Id): (k: nat)
    ensures u in s.st.tcbs ==> k <= |s.st.tcbs[u].joined|
  {
    if u.socket in s.pc && s.pc[u.socket].Closing? && Is(s.st, u, EXEC) && s.pc[u.socket].k <= |s.st.tcbs[u].joined|
    then s.pc[u.socket].k else 0
  }

  ghost predicate InQueue(s: Sys, t: Id, w: Waker) {
    t in Queue(s, w)
  }

  ghost predicate SameProgram(t: Id, w: Waker) {
    match w
    case OnSem(_) => true
    case OnWakeup(p) => t.socket == p
    case OnJoin(u) => t.socket == u.socket
  }

  /** No thread is lost: a thread is BLOCKED exactly when one pending waker has it, once. */
  ghost predicate OneWaker(s: Sys) {
    && (forall w :: NoDup(Queue(s, w)))
    && (forall t, w :: InQueue(s, t, w) ==> Is(s.st, t, BLOCKED) && SameProgram(t, w))
    && (forall t, w, v :: InQueue(s, t, w) && InQueue(s, t, v) ==> w == v)
    && (forall t :: Is(s.st, t, BLOCKED) ==> exists w :: InQueue(s, t, w))
  }

  ghost predicate Picked(s: Sys, t: Id) {
    t.socket in s.pc && (s.pc[t.socket] == Preempting(t) || s.pc[t.socket] == Resuming(t))
  }

  /** A thread's record agrees with its log; the estimate is folded while it runs or is about to. */
  ghost predicate TimedRecord(alpha: real, tcb: Tcb, log: Log, picked: bool, clock: real) {
    && Accounts(alpha, tcb.time, log, tcb.state == EXEC || picked)
    && Last(log).state == tcb.state
    && (picked ==> tcb.state == READY)
    && 0.0 <= log[0].at && Last(log).at <= clock
  }

  ghost predicate ThreadTimed(s: Sys, t: Id) {
    t in s.st.tcbs && t in s.st.log && TimedRecord(s.st.alpha, s.st.tcbs[t], s.st.log[t], Picked(s, t), s.clock)
  }

  ghost predicate Timed(s: Sys) {
    forall t :: t in s.st.tcbs ==> ThreadTimed(s, t)
  }

  ghost predicate PhaseOk(st: State, pc: Pc, p: int) {
    && p in st.programs
    && match pc
      case Idle => true
      case Loading =>
        && st.programs[p].exec == None
        && (if st.programs[p].mainLoaded then Is(st, Id(p, 0), READY) else Is(st, Id(p, 0), NEW))
        && Id(p, 0) in st.log && Bursts(st.log[Id(p, 0)]) == []
      case Waking(_) => true
      case Closing(k) =>
        Running(st, p) && Exec(st, p).socket == p && Exec(st, p) in st.tcbs && k <= |st.tcbs[Exec(st, p)].joined|
      case Preempting(n) => Running(st, p) && n.socket == p && Is(st, n, READY)
      case Resuming(n) => st.programs[p].exec == None && n.socket == p && Is(st, n, READY)
  }

  /** Programs without a main thread have no thread at all, and are not yet loaded. */
  ghost predicate MainFirst(st: State) {
    && (forall t :: t in st.tcbs ==> Id(t.socket, 0) in st.tcbs)
    && (forall p :: p in st.programs && Id(p, 0) !in st.tcbs ==> !st.programs[p].mainLoaded)
  }

  ghost predicate LtOk(s: Sys) {
    && s.st.newCounter == |s.st.newList| - (if s.lt == Free then 0 else 1)
    && (s.lt != Free ==> s.st.newList != [] && s.lt.t == s.st.newList[0])
    && (s.lt.Checked? ==> s.st.available > 0)
  }

  ghost predicate Phases(s: Sys) {
    && s.pc.Keys == s.st.programs.Keys
    && (forall p :: p in s.pc ==> PhaseOk(s.st, s.pc[p], p))
    && MainFirst(s.st)
    && LtOk(s)
  }

  ghost predicate Inv(s: Sys) {
    && 0.0 <= s.st.alpha <= 1.0 && 0.0 <= s.clock
    && Placed(s.st) && Counted(s.st) && SemsOk(s.st) && OneWaker(s) && Timed(s) && Phases(s)
  }

  lemma StartInv(alpha: real, maxMultiprog: nat, config: map<string, SemConfig>, now: real)
    requires ConfigOk(alpha, config) && now >= 0.0
    ensures Inv(Start(alpha, maxMultiprog, config, now))
  {
    var s := Start(alpha, maxMultiprog, config, now);
    assert ActiveThreads(s.st.tcbs) == {};
    assert forall w :: Queue(s, w) == [];
  }
}
