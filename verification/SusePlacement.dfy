// Every step is some bookkeeping followed by at most one `move_tcb_to`;
// containers and counters survive both parts.
module SusePlacement {
  import opened Lists
  import opened SuseTiming
  import opened SuseState
  import opened SuseInvariant
  import opened SuseSystem

  datatype Target = Target(t: Id, to: ThreadState)

  /** The thread a step moves, and where to. */
  ghost function Moved(s: Sys, a: Action): Option<Target>
    requires Safe(s, a)
  {
    var st := s.st;
    match a.step
    case LoadingMain(p) => Some(Target(Id(p, 0), EXEC))
    case LtMove => Some(Target(s.lt.t, READY))
    case Waits(p, tid, name) => if WaitBlocks(st, p, tid, name) then Some(Target(Exec(st, p), BLOCKED)) else None
    case Joins(p, tid) => if Is(st, Id(p, tid), EXIT) then None else Some(Target(Exec(st, p), BLOCKED))
    case Unjoins(p) => Some(Target(st.tcbs[Exec(st, p)].joined[s.pc[p].k], READY))
    case Finishes(p) => Some(Target(Exec(st, p), EXIT))
    case WakeNext(p) => Some(Target(st.programs[p].wakeup[s.pc[p].i], READY))
    case Preempts(p) => Some(Target(Exec(st, p), READY))
    case Resumes(p) => Some(Target(s.pc[p].next, EXEC))
    case _ => None
  }

  /** The bookkeeping of a step. */
  ghost function Prepared(s: Sys, a: Action): State
    requires Safe(s, a)
  {
    var st := s.st;
    match a.step
    case Connecting(p) => Connect(st, p)
    case Creating(p, tid) => CreateTcb(st, Id(p, tid), a.now)
    case LtFetch => st.(newCounter := st.newCounter - 1)
    case LtMove =>
      var p := s.lt.t.socket;
      if s.lt.t.tid == 0 then st.(programs := st.programs[p := st.programs[p].(mainLoaded := true)]) else st
    case Waits(p, tid, name) =>
      var sem := st.sems[name];
      if Exec(st, p).tid != tid then st
      else if sem.value <= 0 then
        st.(sems := st.sems[name := sem.(value := sem.value - 1, blocked := sem.blocked + [Exec(st, p)])])
      else st.(sems := st.sems[name := sem.(value := sem.value - 1)])
    case Signals(p, tid, name) => Signal(st, p, tid, name)
    case Joins(p, tid) =>
      var u := st.tcbs[Id(p, tid)];
      if u.state == EXIT then st else st.(tcbs := st.tcbs[Id(p, tid) := u.(joined := u.joined + [Exec(st, p)])])
    case WakeNext(p) =>
      var prog := st.programs[p];
      var i := s.pc[p].i;
      st.(programs :=
        st.programs[p := prog.(wakeup := prog.wakeup[..i] + prog.wakeup[i + 1..], counter := prog.counter - 1)])
    case Schedules(p) => Choose(st, p, a.now)
    case _ => st
  }

  lemma AdmitNormal(s: Sys, a: Action)
    requires Safe(s, a) && a.step == LtMove
    ensures Known(Prepared(s, a), s.lt.t) && Apply(s, a).st == Move(Prepared(s, a), s.lt.t, READY, a.now)
  {
    var t := s.lt.t;
    assert Apply(s, a).st.programs == Move(Prepared(s, a), t, READY, a.now).programs;
  }

  /** A thread woken from BLOCKED goes to the end of its program's ready list. */
  lemma MoveToReady(st: State, t: Id, now: real)
    requires Known(st, t) && Is(st, t, BLOCKED)
    ensures var r := Move(st, t, READY, now); var prog := st.programs[t.socket];
      r.programs == st.programs[t.socket := prog.(ready := prog.ready + [t], counter := prog.counter + 1)]
  {
    hide Switch, Remove;
  }

  /** The rest of a waking move does not look at the programs. */
  lemma MoveElsewhere(a: State, b: State, t: Id, now: real)
    requires Known(a, t) && Known(b, t) && Is(a, t, BLOCKED) && b == a.(programs := b.programs)
    ensures var r := Move(b, t, READY, now); r == Move(a, t, READY, now).(programs := r.programs)
  {
    hide Switch, Remove;
  }

  lemma WakeNormal(s: Sys, a: Action)
    requires Safe(s, a) && a.step.WakeNext?
    ensures var t := s.st.programs[a.step.p].wakeup[s.pc[a.step.p].i];
      Known(Prepared(s, a), t) && Apply(s, a).st == Move(Prepared(s, a), t, READY, a.now)
  {
    hide Move, MoveSafe;
    WakeTarget(s, a);
    var p := a.step.p;
    var prog := s.st.programs[p];
    var t := prog.wakeup[s.pc[p].i];
    var taken := prog.(wakeup := prog.wakeup[..s.pc[p].i] + prog.wakeup[s.pc[p].i + 1..]);
    var listed := s.st.(programs := s.st.programs[p := taken]);
    MoveToReady(listed, t, a.now);
    MoveToReady(Prepared(s, a), t, a.now);
    MoveElsewhere(listed, Prepared(s, a), t, a.now);
    assert Apply(s, a).st.programs == Move(Prepared(s, a), t, READY, a.now).programs;
  }

  lemma WakeTarget(s: Sys, a: Action)
    requires Safe(s, a) && a.step.WakeNext?
    ensures var t := s.st.programs[a.step.p].wakeup[s.pc[a.step.p].i];
      Known(s.st, t) && Is(s.st, t, BLOCKED) && t.socket == a.step.p
  {}

  /** A step is its bookkeeping and then its move. */
  lemma NormalForm(s: Sys, a: Action)
    requires Safe(s, a)
    ensures match Moved(s, a)
      case None => Apply(s, a).st == Prepared(s, a)
      case Some(Target(t, to)) =>
        Known(Prepared(s, a), t) && Apply(s, a).st == Move(Prepared(s, a), t, to, a.now) && MoveSafe(s.st, t, to)
  {
    match a.step
    case LtMove => AdmitNormal(s, a);
    case WakeNext(p) => WakeNormal(s, a);
    case _ =>
  }

  /** Bookkeeping that moves no thread and keeps the thread counters' balance. */
  ghost predicate Booked(a: State, b: State) {
    && SameLists(a, b)
    && b.tcbs.Keys == a.tcbs.Keys && b.log.Keys == a.log.Keys
    && (forall t :: t in b.tcbs ==> b.tcbs[t].state == a.tcbs[t].state)
    && b.degree == a.degree && b.available == a.available && b.maxMultiprog == a.maxMultiprog && b.alpha == a.alpha
    && forall p :: p in b.programs ==>
       b.programs[p].counter - |b.programs[p].wakeup| == a.programs[p].counter - |a.programs[p].wakeup|
  }

  lemma ChooseBooked(st: State, p: int, now: real)
    requires CanScan(st, p) && (ChosenPos(st, p, now) == -1 ==> Running(st, p))
    ensures Booked(st, Choose(st, p, now))
  {
    if ChosenPos(st, p, now) != -1 {
      assert Known(st, st.programs[p].ready[ChosenPos(st, p, now)]);
    }
  }

  lemma SignalBooked(st: State, p: int, tid: int, name: string)
    requires Running(st, p) && name in st.sems && SignalDefined(st, p, tid, name)
    ensures Booked(st, Signal(st, p, tid, name))
  {
  }

  lemma WakeBooked(s: Sys, a: Action)
    requires Safe(s, a) && a.step.WakeNext?
    ensures Booked(s.st, Prepared(s, a))
  {
  }

  lemma AdmitBooked(s: Sys, a: Action)
    requires Safe(s, a) && a.step.LtMove?
    ensures Booked(s.st, Prepared(s, a))
  {
  }

  lemma WaitBooked(s: Sys, a: Action)
    requires Safe(s, a) && a.step.Waits?
    ensures Booked(s.st, Prepared(s, a))
  {
  }

  lemma JoinBooked(s: Sys, a: Action)
    requires Safe(s, a) && a.step.Joins?
    ensures Booked(s.st, Prepared(s, a))
  {
  }

  /** The bookkeeping of every step but the two that create. */
  lemma PreparedKeeps(s: Sys, a: Action)
    requires Safe(s, a) && !a.step.Connecting? && !a.step.Creating?
    ensures Booked(s.st, Prepared(s, a))
  {
    match a.step
    case Schedules(p) => ChooseBooked(s.st, p, a.now);
    case Signals(p, tid, name) => SignalBooked(s.st, p, tid, name);
    case WakeNext(_) => WakeBooked(s, a);
    case LtMove => AdmitBooked(s, a);
    case Waits(_, _, _) => WaitBooked(s, a);
    case Joins(_, _) => JoinBooked(s, a);
    case _ =>
  }

  /** Which programs there are, and which have their main thread loaded, after the bookkeeping. */
  ghost predicate SamePrograms(s: Sys, a: Action, b: State) {
    && b.programs.Keys == s.st.programs.Keys
    && forall p :: p in s.st.programs ==>
         b.programs[p].mainLoaded
           == (s.st.programs[p].mainLoaded || (a.step.LtMove? && s.lt.Checked? && s.lt.t == Id(p, 0)))
  }

  lemma AdmitPrograms(s: Sys, a: Action)
    requires Safe(s, a) && a.step.LtMove?
    ensures SamePrograms(s, a, Prepared(s, a))
  {
  }

  lemma PreparedPrograms(s: Sys, a: Action)
    requires Safe(s, a) && !a.step.Connecting?
    ensures SamePrograms(s, a, Prepared(s, a))
  {
    match a.step
    case LtMove => AdmitPrograms(s, a);
    case Schedules(p) =>
    case Signals(p, tid, name) =>
    case WakeNext(p) =>
    case Connecting(_) =>
    case _ => assert Prepared(s, a).programs == s.st.programs;
  }

  /** A step creates no program but by connecting, and loads no main thread but by admitting it. */
  lemma StepPrograms(s: Sys, a: Action)
    requires Safe(s, a) && !a.step.Connecting?
    ensures SamePrograms(s, a, Apply(s, a).st)
  {
    hide Safe, Move, Apply, Prepared, Moved, Switch;
    NormalForm(s, a);
    PreparedPrograms(s, a);
    if Moved(s, a).Some? {
      var t, to := Moved(s, a).value.t, Moved(s, a).value.to;
      MovesAway(s, a);
      MoveFrame(Prepared(s, a), t, to, a.now);
    }
  }

  /** The bookkeeping leaves the thread that moves where it was, away from its target. */
  lemma MovesAway(s: Sys, a: Action)
    requires Safe(s, a) && Moved(s, a).Some?
    ensures var m := Moved(s, a).value; var b := Prepared(s, a);
      && m.t in s.st.tcbs && Known(b, m.t) && b.tcbs[m.t].state == s.st.tcbs[m.t].state && b.tcbs[m.t].state != m.to
      && MoveSafe(s.st, m.t, m.to) && Apply(s, a).st == Move(b, m.t, m.to, a.now)
  {
    hide Move, Safe, Apply, Prepared;
    NormalForm(s, a);
    NotCreating(s, a);
    PreparedKeeps(s, a);
  }

  lemma NotCreating(s: Sys, a: Action)
    requires Safe(s, a) && Moved(s, a).Some?
    ensures !a.step.Connecting? && !a.step.Creating?
  {
  }

  lemma BookedPlaced(a: State, b: State)
    requires Placed(a) && Booked(a, b)
    ensures Placed(b)
  {
    assert StateFields(b.tcbs) == StateFields(a.tcbs);
    SameContainers(a, b, StateFields(a.tcbs));
  }

  lemma BookedCounted(a: State, b: State)
    requires Counted(a) && Booked(a, b)
    ensures Counted(b)
  {
    assert ActiveThreads(b.tcbs) == ActiveThreads(a.tcbs);
    forall p | p in b.programs ensures ProgramCounted(b.programs[p]) {
      assert ProgramCounted(a.programs[p]);
    }
  }

  lemma ConnectPlaced(st: State, p: int)
    requires Placed(st) && p !in st.programs
    ensures Placed(Connect(st, p))
  {
    var s := Connect(st, p);
    var where := StateFields(st.tcbs);
    forall q | q in s.programs ensures ProgramHolds(s.programs[q], Own(where, q)) {
      if q == p {
        assert Own(where, p) == map[];
      }
    }
  }

  lemma CreatePlaced(st: State, t: Id, now: real)
    requires Placed(st) && t !in st.tcbs && t.socket in st.programs
    ensures Placed(CreateTcb(st, t, now))
  {
    var s := CreateTcb(st, t, now);
    var where := StateFields(st.tcbs);
    FieldsUpdate(st.tcbs, t, s.tcbs[t]);
    assert where - {t} == where;
    HoldsPut(st.newList, where, NEW, t, NEW);
    HoldsPut(st.blockedList, where, BLOCKED, t, NEW);
    HoldsPut(st.exitList, where, EXIT, t, NEW);
    forall p | p in s.programs ensures ProgramHolds(s.programs[p], Own(where[t := NEW], p)) {
      assert ProgramHolds(st.programs[p], Own(where, p));
      OwnChange(where, t, NEW, p);
      if p == t.socket {
        HoldsPut(st.programs[p].ready, Own(where, p), READY, t, NEW);
        HoldsPut(Slot(st.programs[p].exec), Own(where, p), EXEC, t, NEW);
      }
    }
  }

  lemma ConnectCounted(st: State, p: int)
    requires Counted(st) && p !in st.programs
    ensures Counted(Connect(st, p))
  {
    var s := Connect(st, p);
    forall q | q in s.programs ensures ProgramCounted(s.programs[q]) {
      assert q != p ==> ProgramCounted(st.programs[q]);
    }
  }

  lemma CreateCounted(st: State, t: Id, now: real)
    requires Counted(st) && t !in st.tcbs
    ensures Counted(CreateTcb(st, t, now))
  {
    assert ActiveThreads(CreateTcb(st, t, now).tcbs) == ActiveThreads(st.tcbs);
  }

  lemma {:induction false} MovedPlaced(st: State, b: State, t: Id, to: ThreadState, now: real)
    requires Placed(st) && Counted(st) && Booked(st, b) && MoveSafe(st, t, to) && Known(b, t)
    ensures Placed(Move(b, t, to, now)) && Counted(Move(b, t, to, now))
  {
    BookedPlaced(st, b);
    BookedCounted(st, b);
    MovePlaced(b, t, to, now);
    MoveCounted(b, t, to, now);
  }

  /** Containers and counters survive every step. */
  lemma PlacedKept(s: Sys, a: Action)
    requires Placed(s.st) && Counted(s.st) && Guard(s, a) && Safe(s, a)
    ensures Placed(Apply(s, a).st) && Counted(Apply(s, a).st)
  {
    NormalForm(s, a);
    if a.step.Connecting? {
      ConnectPlaced(s.st, a.step.p);
      ConnectCounted(s.st, a.step.p);
    } else if a.step.Creating? {
      CreatePlaced(s.st, Id(a.step.p, a.step.tid), a.now);
      CreateCounted(s.st, Id(a.step.p, a.step.tid), a.now);
    } else {
      PreparedKeeps(s, a);
      match Moved(s, a)
      case None =>
        BookedPlaced(s.st, Prepared(s, a));
        BookedCounted(s.st, Prepared(s, a));
      case Some(Target(t, to)) => MovedPlaced(s.st, Prepared(s, a), t, to, a.now);
    }
  }

  /** The life cycle: one step changes the state of at most one thread, and only along a legal arrow. */
  lemma LifeCycle(s: Sys, a: Action, t: Id)
    requires Safe(s, a) && t in s.st.tcbs && (a.step.Creating? ==> Guard(s, a))
    ensures t in Apply(s, a).st.tcbs
    ensures var before, after := s.st.tcbs[t].state, Apply(s, a).st.tcbs[t].state;
      after == before || (LegalChange(before, after) && Moved(s, a) == Some(Target(t, after)))
  {
    if !a.step.Connecting? && !a.step.Creating? {
      PreparedKeeps(s, a);
    }
    NormalForm(s, a);
    match Moved(s, a)
    case None =>
    case Some(Target(u, to)) => MoveFrame(Prepared(s, a), u, to, a.now);
  }
}
