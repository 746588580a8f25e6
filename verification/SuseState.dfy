// The scheduler's global data, and each critical section of suse_scheduler.c as a function on it.
// A C pointer to a thread control block is the thread's identity, a key of `tcbs`.
module SuseState {
  import opened Lists
  import opened SuseTiming

  /** A thread is identified by its program's socket and its number inside the program. */
  datatype Id = Id(socket: int, tid: int)

  datatype Tcb = Tcb(state: ThreadState, time: Burst, joined: seq<Id>)

  datatype Program = Program(ready: seq<Id>, exec: Option<Id>, counter: int, wakeup: seq<Id>, mainLoaded: bool)

  datatype Sem = Sem(value: int, max: int, blocked: seq<Id>)

  /** `log` is not stored by the program: it records each thread's changes of state. */
  datatype State = State(
    alpha: real,
    maxMultiprog: nat,
    tcbs: map<Id, Tcb>,
    programs: map<int, Program>,
    sems: map<string, Sem>,
    newList: seq<Id>,
    blockedList: seq<Id>,
    exitList: seq<Id>,
    newCounter: int,
    degree: int,
    available: int,
    log: map<Id, Log>)

  /** The largest finite `float`. */
  const FLT_MAX: real := 340282346638528859811704183484516925440.0

  predicate Known(st: State, t: Id) {
    t in st.tcbs && t in st.log && t.socket in st.programs
  }

  predicate Is(st: State, t: Id, s: ThreadState) {
    t in st.tcbs && st.tcbs[t].state == s
  }

  // ---- move_tcb_to ----

  /** Take `t` out of the container its state names. */
  function Leave(st: State, t: Id): State
    requires Known(st, t)
  {
    var p := st.programs[t.socket];
    match st.tcbs[t].state
    case NEW => st.(newList := Remove(st.newList, t))
    case READY =>
      st.(programs := st.programs[t.socket := p.(ready := Remove(p.ready, t), counter := p.counter - 1)],
          degree := st.degree - 1, available := st.available + 1)
    case EXEC =>
      st.(programs := st.programs[t.socket := p.(exec := None)],
          degree := st.degree - 1, available := st.available + 1)
    case BLOCKED =>
      st.(blockedList := Remove(st.blockedList, t), degree := st.degree - 1, available := st.available + 1)
    case EXIT => st.(exitList := Remove(st.exitList, t))
  }

  /** Put `t` into the container that `to` names. */
  function Enter(st: State, t: Id, to: ThreadState): State
    requires Known(st, t)
  {
    var p := st.programs[t.socket];
    match to
    case NEW => st.(newList := st.newList + [t])
    case READY =>
      st.(programs := st.programs[t.socket := p.(ready := p.ready + [t], counter := p.counter + 1)],
          degree := st.degree + 1, available := st.available - 1)
    case EXEC =>
      st.(programs := st.programs[t.socket := p.(exec := Some(t))],
          degree := st.degree + 1, available := st.available - 1)
    case BLOCKED =>
      st.(blockedList := st.blockedList + [t], degree := st.degree + 1, available := st.available - 1)
    case EXIT => st.(exitList := st.exitList + [t])
  }

  function Move(st: State, t: Id, to: ThreadState, now: real): State
    requires Known(st, t)
  {
    var tcb := st.tcbs[t];
    if tcb.state == to then st
    else
      var s := Enter(Leave(st, t), t, to);
      s.(tcbs := st.tcbs[t := tcb.(state := to, time := Switch(tcb.time, tcb.state, to, now))],
         log := st.log[t := st.log[t] + [Event(to, now)]])
  }

  // ---- creation and admission ----

  function Connect(st: State, p: int): State {
    st.(programs := st.programs[p := Program([], None, 0, [], false)])
  }

  function CreateTcb(st: State, t: Id, now: real): State {
    st.(tcbs := st.tcbs[t := Tcb(NEW, NewBurst(now), [])],
        log := st.log[t := [Event(NEW, now)]],
        newList := st.newList + [t],
        newCounter := st.newCounter + 1)
  }

  /** The long-term scheduler's move, which also releases the program's main thread. */
  function Admit(st: State, t: Id, now: real): State
    requires Known(st, t)
  {
    var s := Move(st, t, READY, now);
    if t.tid == 0 then s.(programs := s.programs[t.socket := s.programs[t.socket].(mainLoaded := true)]) else s
  }

  // ---- client operations ----

  predicate Running(st: State, p: int) {
    p in st.programs && st.programs[p].exec.Some?
  }

  function Exec(st: State, p: int): Id
    requires Running(st, p)
  {
    st.programs[p].exec.value
  }

  /** `suse_wait` takes the semaphore down and blocks the caller when it goes below zero. */
  predicate WaitBlocks(st: State, p: int, tid: int, name: string) {
    Running(st, p) && Exec(st, p).tid == tid && name in st.sems && st.sems[name].value <= 0
  }

  function Wait(st: State, p: int, tid: int, name: string, now: real): State
    requires Running(st, p) && Known(st, Exec(st, p)) && name in st.sems
  {
    var t := Exec(st, p);
    var sem := st.sems[name];
    if t.tid != tid then st
    else if sem.value - 1 < 0 then
      Move(st.(sems := st.sems[name := sem.(value := sem.value - 1, blocked := sem.blocked + [t])]), t, BLOCKED, now)
    else st.(sems := st.sems[name := sem.(value := sem.value - 1)])
  }

  /** `suse_signal`'s new semaphore value: never above the maximum. */
  function Raised(sem: Sem): int {
    if sem.value < sem.max then sem.value + 1 else sem.value
  }

  predicate SignalWakes(st: State, p: int, tid: int, name: string) {
    Running(st, p) && Exec(st, p).tid == tid && name in st.sems && Raised(st.sems[name]) <= 0
  }

  /** Some thread is there to be taken when the signal wakes one, and its program is connected. */
  predicate SignalDefined(st: State, p: int, tid: int, name: string) {
    SignalWakes(st, p, tid, name) ==> st.sems[name].blocked != [] && st.sems[name].blocked[0].socket in st.programs
  }

  function NotifyWakeup(st: State, t: Id): State
    requires t.socket in st.programs
  {
    var p := st.programs[t.socket];
    st.(programs := st.programs[t.socket := p.(wakeup := p.wakeup + [t], counter := p.counter + 1)])
  }

  function Signal(st: State, p: int, tid: int, name: string): State
    requires Running(st, p) && name in st.sems && SignalDefined(st, p, tid, name)
  {
    var sem := st.sems[name];
    if Exec(st, p).tid != tid then st
    else if Raised(sem) <= 0 then
      NotifyWakeup(st.(sems := st.sems[name := sem.(value := Raised(sem), blocked := sem.blocked[1..])]),
        sem.blocked[0])
    else st.(sems := st.sems[name := sem.(value := Raised(sem))])
  }

  /** `suse_join` on a thread of the same program that is READY, BLOCKED or finished. */
  function Join(st: State, p: int, tid: int, now: real): State
    requires Running(st, p) && Known(st, Exec(st, p)) && Id(p, tid) in st.tcbs
  {
    var u := Id(p, tid);
    var t := Exec(st, p);
    if st.tcbs[u].state == EXIT then st
    else
      var tcb := st.tcbs[u];
      Move(st.(tcbs := st.tcbs[u := tcb.(joined := tcb.joined + [t])]), t, BLOCKED, now)
  }

  /** One round of the `wakeup_threads` loop: position `i` of the list goes to READY. */
  function WakeOne(st: State, p: int, i: nat, now: real): (r: State)
    requires p in st.programs && i < |st.programs[p].wakeup| && Known(st, st.programs[p].wakeup[i])
    ensures p in r.programs && r.tcbs.Keys == st.tcbs.Keys && r.programs.Keys == st.programs.Keys
      && r.log.Keys == st.log.Keys
    ensures r.programs[p].wakeup == st.programs[p].wakeup[..i] + st.programs[p].wakeup[i + 1..]
  {
    var w := st.programs[p].wakeup;
    var s := Move(st.(programs := st.programs[p := st.programs[p].(wakeup := w[..i] + w[i + 1..])]), w[i], READY, now);
    s.(programs := s.programs[p := s.programs[p].(counter := s.programs[p].counter - 1)])
  }

  // ---- short-term scheduling ----

  /** The scan of the ready list: position of the first strict minimum below `bound`, or -1. */
  function BestPos(estimates: seq<real>, bound: real): (r: int)
    ensures -1 <= r < |estimates|
  {
    if estimates == [] then -1
    else
      var n := |estimates| - 1;
      var r := BestPos(estimates[..n], bound);
      if estimates[n] < (if r == -1 then bound else estimates[r]) then n else r
  }

  ghost predicate AllKnown(st: State, list: seq<Id>) {
    forall i :: 0 <= i < |list| ==> Known(st, list[i])
  }

  ghost function Estimates(st: State, list: seq<Id>): seq<real>
    requires AllKnown(st, list)
  {
    seq(|list|, i requires 0 <= i < |list| => Estimate(st.alpha, st.tcbs[list[i]].time))
  }

  /** What a ready thread must beat: the running thread's estimate with the burst so far. */
  function Bound(st: State, p: int, now: real): real
    requires p in st.programs && (Running(st, p) ==> Known(st, Exec(st, p)))
  {
    if Running(st, p) then
      var b := st.tcbs[Exec(st, p)].time;
      EstimateWith(st.alpha, b, now - b.execStart)
    else FLT_MAX
  }

  ghost predicate CanScan(st: State, p: int) {
    p in st.programs && AllKnown(st, st.programs[p].ready) && (Running(st, p) ==> Known(st, Exec(st, p)))
  }

  ghost function ChosenPos(st: State, p: int, now: real): (r: int)
    requires CanScan(st, p)
    ensures -1 <= r < |st.programs[p].ready|
  {
    BestPos(Estimates(st, st.programs[p].ready), Bound(st, p, now))
  }

  /** First critical section of `schedule_next_for`: store the estimate of the chosen or kept thread. */
  ghost function Choose(st: State, p: int, now: real): State
    requires CanScan(st, p) && (ChosenPos(st, p, now) == -1 ==> Running(st, p))
  {
    var pos := ChosenPos(st, p, now);
    if pos == -1 then
      var t := Exec(st, p);
      var tcb := st.tcbs[t];
      st.(tcbs := st.tcbs[t := tcb.(time := Switch(tcb.time, EXEC, EXEC, now).(lastEstimate := Bound(st, p, now)))],
          log := st.log[t := st.log[t] + [Event(EXEC, now)]])
    else
      var t := st.programs[p].ready[pos];
      var tcb := st.tcbs[t];
      st.(tcbs := st.tcbs[t := tcb.(time := tcb.time.(lastEstimate := Estimate(st.alpha, tcb.time)))])
  }

  /** The scan finds the first thread of least estimate, and only a strictly smaller one counts. */
  lemma {:induction false} BestPosIsFirstLeast(estimates: seq<real>, bound: real)
    ensures var r := BestPos(estimates, bound);
      && (r == -1 <==> forall i :: 0 <= i < |estimates| ==> bound <= estimates[i])
      && (r != -1 ==>
          && estimates[r] < bound
          && (forall i :: 0 <= i < |estimates| ==> estimates[r] <= estimates[i])
          && (forall i :: 0 <= i < r ==> estimates[r] < estimates[i]))
  {
    if estimates != [] {
      var n := |estimates| - 1;
      BestPosIsFirstLeast(estimates[..n], bound);
      assert forall i :: 0 <= i < n ==> estimates[..n][i] == estimates[i];
    }
  }
}
