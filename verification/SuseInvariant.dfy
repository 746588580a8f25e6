// What every critical section keeps about the scheduler's containers and counters.
module SuseInvariant {
  import opened Lists
  import opened SuseTiming
  import opened SuseState

  ghost predicate At(where: map<Id, ThreadState>, t: Id, s: ThreadState) {
    t in where && where[t] == s
  }

  /** `list` has, once each, exactly the threads that are in state `s`. */
  ghost predicate Holds(list: seq<Id>, where: map<Id, ThreadState>, s: ThreadState) {
    NoDup(list) && forall t :: t in list <==> At(where, t, s)
  }

  ghost function Own(where: map<Id, ThreadState>, p: int): map<Id, ThreadState> {
    map t | t in where && t.socket == p :: where[t]
  }

  /** The exec slot as a list. */
  ghost function Slot(exec: Option<Id>): seq<Id> {
    if exec.Some? then [exec.value] else []
  }

  ghost predicate ProgramHolds(prog: Program, own: map<Id, ThreadState>) {
    Holds(prog.ready, own, READY) && Holds(Slot(prog.exec), own, EXEC)
  }

  ghost predicate Containers(st: State, where: map<Id, ThreadState>) {
    && Holds(st.newList, where, NEW) && Holds(st.blockedList, where, BLOCKED) && Holds(st.exitList, where, EXIT)
    && (forall t :: t in where ==> t.socket in st.programs)
    && (forall p :: p in st.programs ==> ProgramHolds(st.programs[p], Own(where, p)))
  }

  ghost function StateFields(tcbs: map<Id, Tcb>): map<Id, ThreadState> {
    map t | t in tcbs :: tcbs[t].state
  }

  /** Each thread is, once, in exactly the container its state field names. */
  ghost predicate Placed(st: State) {
    && st.tcbs.Keys == st.log.Keys
    && Containers(st, StateFields(st.tcbs))
  }

  ghost predicate Active(s: ThreadState) {
    s in {READY, EXEC, BLOCKED}
  }

  ghost function ActiveThreads(tcbs: map<Id, Tcb>): set<Id> {
    set t | t in tcbs && Active(tcbs[t].state)
  }

  ghost predicate ProgramCounted(prog: Program) {
    prog.counter == |prog.ready| + |prog.wakeup|
  }

  /** Every counter says what it is meant to count. */
  ghost predicate Counted(st: State) {
    && st.degree == |ActiveThreads(st.tcbs)|
    && st.degree + st.available == st.maxMultiprog
    && st.available >= 0
    && forall p :: p in st.programs ==> ProgramCounted(st.programs[p])
  }

  function Waiting(value: int): nat {
    if value < 0 then -value else 0
  }

  /** A semaphore below zero owes exactly that many wakeups. */
  ghost predicate SemsOk(st: State) {
    forall n :: n in st.sems ==>
      && st.sems[n].value <= st.sems[n].max
      && st.sems[n].max >= 1
      && |st.sems[n].blocked| == Waiting(st.sems[n].value)
  }

  lemma HoldsDrop(list: seq<Id>, where: map<Id, ThreadState>, s: ThreadState, t: Id)
    requires Holds(list, where, s)
    ensures Holds(if At(where, t, s) then Remove(list, t) else list, where - {t}, s)
  {
  }

  lemma HoldsPut(list: seq<Id>, where: map<Id, ThreadState>, s: ThreadState, t: Id, to: ThreadState)
    requires Holds(list, where, s) && t !in where
    ensures Holds(if to == s then list + [t] else list, where[t := to], s)
  {
    assert !At(where, t, s);
    AppendMember(list, t);
  }

  lemma OwnChange(where: map<Id, ThreadState>, t: Id, to: ThreadState, p: int)
    ensures Own(where - {t}, p) == if p == t.socket then Own(where, p) - {t} else Own(where, p)
    ensures Own(where[t := to], p) == if p == t.socket then Own(where, p)[t := to] else Own(where, p)
  {
  }

  lemma LeavePlaced(st: State, t: Id)
    requires Placed(st) && t in st.tcbs
    ensures Containers(Leave(st, t), StateFields(st.tcbs) - {t})
  {
    var where := StateFields(st.tcbs);
    var s := Leave(st, t);
    HoldsDrop(st.newList, where, NEW, t);
    HoldsDrop(st.blockedList, where, BLOCKED, t);
    HoldsDrop(st.exitList, where, EXIT, t);
    forall p | p in s.programs ensures ProgramHolds(s.programs[p], Own(where - {t}, p)) {
      var prog := st.programs[p];
      assert ProgramHolds(prog, Own(where, p));
      OwnChange(where, t, NEW, p);
      if p == t.socket {
        HoldsDrop(prog.ready, Own(where, p), READY, t);
        HoldsDrop(Slot(prog.exec), Own(where, p), EXEC, t);
      }
    }
  }

  lemma EnterPlaced(st: State, t: Id, to: ThreadState, where: map<Id, ThreadState>)
    requires Known(st, t) && Containers(st, where) && t !in where
    requires to == EXEC ==> st.programs[t.socket].exec == None
    ensures Containers(Enter(st, t, to), where[t := to])
  {
    var s := Enter(st, t, to);
    HoldsPut(st.newList, where, NEW, t, to);
    HoldsPut(st.blockedList, where, BLOCKED, t, to);
    HoldsPut(st.exitList, where, EXIT, t, to);
    forall p | p in s.programs ensures ProgramHolds(s.programs[p], Own(where[t := to], p)) {
      var prog := st.programs[p];
      assert ProgramHolds(prog, Own(where, p));
      OwnChange(where, t, to, p);
      if p == t.socket {
        HoldsPut(prog.ready, Own(where, p), READY, t, to);
        HoldsPut(Slot(prog.exec), Own(where, p), EXEC, t, to);
      }
    }
  }

  ghost predicate SameLists(a: State, b: State) {
    && a.newList == b.newList && a.blockedList == b.blockedList && a.exitList == b.exitList
    && a.programs.Keys == b.programs.Keys
    && forall p :: p in a.programs ==>
       a.programs[p].ready == b.programs[p].ready && a.programs[p].exec == b.programs[p].exec
  }

  lemma SameContainers(a: State, b: State, where: map<Id, ThreadState>)
    requires Containers(a, where) && SameLists(a, b)
    ensures Containers(b, where)
  {
    forall p | p in b.programs ensures ProgramHolds(b.programs[p], Own(where, p)) {
      assert ProgramHolds(a.programs[p], Own(where, p));
    }
  }

  lemma FieldsUpdate(tcbs: map<Id, Tcb>, t: Id, tcb: Tcb)
    ensures StateFields(tcbs[t := tcb]) == (StateFields(tcbs) - {t})[t := tcb.state]
  {
  }

  lemma MovePlaced(st: State, t: Id, to: ThreadState, now: real)
    requires Placed(st) && t in st.tcbs && st.tcbs[t].state != to
    requires to == EXEC ==> st.programs[t.socket].exec == None
    ensures Placed(Move(st, t, to, now))
  {
    var moved := Move(st, t, to, now);
    var where := (StateFields(st.tcbs) - {t})[t := to];
    assert Containers(moved, where) by {
      var left := Leave(st, t);
      LeavePlaced(st, t);
      EnterPlaced(left, t, to, StateFields(st.tcbs) - {t});
      SameContainers(Enter(left, t, to), moved, where);
    }
    FieldsUpdate(st.tcbs, t, moved.tcbs[t]);
  }

  lemma ActiveUpdate(tcbs: map<Id, Tcb>, t: Id, tcb: Tcb)
    requires t in tcbs
    ensures ActiveThreads(tcbs[t := tcb]) ==
      if Active(tcb.state) then ActiveThreads(tcbs) + {t} else ActiveThreads(tcbs) - {t}
  {
  }

  lemma MoveSlots(st: State, t: Id, to: ThreadState, now: real)
    requires Known(st, t) && st.tcbs[t].state != to
    ensures var s := Move(st, t, to, now);
      var change := (if Active(to) then 1 else 0) - (if Active(st.tcbs[t].state) then 1 else 0);
      s.degree == st.degree + change && s.available == st.available - change
  {
    hide Switch, Remove;
  }

  lemma MoveDegree(st: State, t: Id, to: ThreadState, now: real)
    requires Known(st, t) && st.tcbs[t].state != to && st.degree == |ActiveThreads(st.tcbs)|
    ensures var moved := Move(st, t, to, now);
      moved.degree == |ActiveThreads(moved.tcbs)| && moved.degree + moved.available == st.degree + st.available
  {
    hide Move, Switch;
    MoveSlots(st, t, to, now);
    MoveFrame(st, t, to, now);
    var moved := Move(st, t, to, now);
    var before := ActiveThreads(st.tcbs);
    assert moved.tcbs == st.tcbs[t := moved.tcbs[t]] && moved.tcbs[t].state == to;
    ActiveUpdate(st.tcbs, t, moved.tcbs[t]);
    OneMore(before, t);
    assert t in before <==> Active(st.tcbs[t].state);
  }

  lemma OneMore(threads: set<Id>, t: Id)
    ensures |threads + {t}| == |threads| + (if t in threads then 0 else 1)
    ensures |threads - {t}| == |threads| - (if t in threads then 1 else 0)
  {
    if t in threads {
      assert threads + {t} == threads;
    } else {
      assert threads - {t} == threads;
    }
  }

  lemma MoveListed(st: State, t: Id)
    requires Placed(st) && Known(st, t) && st.tcbs[t].state == READY
    ensures t in st.programs[t.socket].ready
  {
    assert ProgramHolds(st.programs[t.socket], Own(StateFields(st.tcbs), t.socket));
    assert At(Own(StateFields(st.tcbs), t.socket), t, READY);
  }

  /** `move_tcb_to` keeps the counters right; only an admission consumes a multiprogramming slot. */
  lemma MoveCounted(st: State, t: Id, to: ThreadState, now: real)
    requires Placed(st) && Counted(st) && Known(st, t) && st.tcbs[t].state != to
    requires Active(to) && !Active(st.tcbs[t].state) ==> st.available > 0
    ensures Counted(Move(st, t, to, now))
  {
    hide Placed, ActiveThreads, NoDup;
    MoveDegree(st, t, to, now);
    if st.tcbs[t].state == READY {
      MoveListed(st, t);
    }
    var moved := Move(st, t, to, now);
    var prog := st.programs[t.socket];
    assert ProgramCounted(prog);
    assert ProgramCounted(moved.programs[t.socket]);
    forall p | p in moved.programs && p != t.socket ensures ProgramCounted(moved.programs[p]) {
      assert moved.programs[p] == st.programs[p];
    }
  }

  /** Neither half of a move touches more than the containers it works on. */
  ghost predicate Alone(a: State, b: State, p: int) {
    && b.tcbs == a.tcbs && b.log == a.log && b.alpha == a.alpha && b.maxMultiprog == a.maxMultiprog && b.sems == a.sems
    && b.newCounter == a.newCounter && b.programs.Keys == a.programs.Keys
    && (forall q :: q in a.programs && q != p ==> b.programs[q] == a.programs[q])
    && (p in a.programs ==>
        b.programs[p].wakeup == a.programs[p].wakeup && b.programs[p].mainLoaded == a.programs[p].mainLoaded)
  }

  lemma LeaveFrame(st: State, t: Id)
    requires Known(st, t)
    ensures var s := Leave(st, t); var from := st.tcbs[t].state;
      && Alone(st, s, t.socket)
      && s.programs[t.socket].exec == (if from == EXEC then None else st.programs[t.socket].exec)
      && s.newList == (if from == NEW then Remove(st.newList, t) else st.newList)
  {
    hide Remove;
    match st.tcbs[t].state
    case READY =>
    case EXEC =>
    case _ =>
  }

  lemma EnterFrame(st: State, t: Id, to: ThreadState)
    requires Known(st, t)
    ensures var s := Enter(st, t, to);
      && Alone(st, s, t.socket)
      && s.programs[t.socket].exec == (if to == EXEC then Some(t) else st.programs[t.socket].exec)
      && (to != NEW ==> s.newList == st.newList)
  {
  }

  /** `list` with `t` taken out, put at the end, both or neither. */
  function Through(list: seq<Id>, t: Id, leaves: bool, enters: bool): seq<Id> {
    (if leaves then Remove(list, t) else list) + (if enters then [t] else [])
  }

  /** A move takes the thread out of the list its state names and puts it at the end of the list of its new state. */
  lemma MoveLists(st: State, t: Id, to: ThreadState, now: real)
    requires Known(st, t) && st.tcbs[t].state != to
    ensures var r := Move(st, t, to, now); var from := st.tcbs[t].state;
      && r.newList == Through(st.newList, t, from == NEW, to == NEW)
      && r.blockedList == Through(st.blockedList, t, from == BLOCKED, to == BLOCKED)
      && r.exitList == Through(st.exitList, t, from == EXIT, to == EXIT)
      && t.socket in r.programs
      && r.programs[t.socket].ready == Through(st.programs[t.socket].ready, t, from == READY, to == READY)
  {
    hide Switch, Remove;
  }

  /** What a move leaves alone. */
  lemma MoveFrame(st: State, t: Id, to: ThreadState, now: real)
    requires Known(st, t) && st.tcbs[t].state != to
    ensures var s := Move(st, t, to, now); var tcb := st.tcbs[t];
      && s.tcbs == st.tcbs[t := tcb.(state := to, time := Switch(tcb.time, tcb.state, to, now))]
      && s.log == st.log[t := st.log[t] + [Event(to, now)]]
      && s.alpha == st.alpha && s.maxMultiprog == st.maxMultiprog && s.sems == st.sems && s.newCounter == st.newCounter
      && s.programs.Keys == st.programs.Keys
      && (forall p :: p in st.programs && p != t.socket ==> s.programs[p] == st.programs[p])
      && s.programs[t.socket].wakeup == st.programs[t.socket].wakeup
      && s.programs[t.socket].mainLoaded == st.programs[t.socket].mainLoaded
      && s.programs[t.socket].exec
         == (if to == EXEC then Some(t) else if tcb.state == EXEC then None else st.programs[t.socket].exec)
      && (tcb.state == NEW && to != NEW ==> s.newList == Remove(st.newList, t))
      && (tcb.state != NEW && to != NEW ==> s.newList == st.newList)
  {
    hide Switch, Leave, Enter, Remove;
    LeaveFrame(st, t);
    EnterFrame(Leave(st, t), t, to);
  }
}
