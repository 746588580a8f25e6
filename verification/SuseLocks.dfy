// The mutexes of SUSE: every critical section as the locks it takes and releases, and any number of threads running
// them.
module SuseLocks {
  // ---- locks and what threads do with them ----

  datatype Lock = Metrics | SemMutex(sem: int) | WakeupMutex(program: int) | StateList | Clientes

  function Rank(l: Lock): nat {
    match l
    case Metrics => 0
    case SemMutex(_) => 1
    case WakeupMutex(_) => 2
    case StateList => 3
    case Clientes => 4
  }

  /** `main_loaded_mutex` is locked by the thread that creates the program and unlocked by the long-term scheduler, so
      it is a gate: the program's own thread passes it after it has been opened. */
  datatype Instr =
    | Acquire(l: Lock)
    | Release(l: Lock)
    | PassMain(program: int)
    | OpenMain(program: int)
    | JoinThread(t: int)      // pthread_join

  type Script = seq<Instr>

  // ---- the critical sections ----

  /** What one `move_tcb_to` does: nothing when the state is already right; else it may look up the program for the
      list it removes from and the list it adds to. */
  datatype Moving = Stays | Moves(removes: bool, adds: bool)

  datatype Section =
    | GetProgram                                     // find_program_pos, get_program, get_program_id, create_program
    | Look                                           // get_new_tcb, the list scans of schedule_next_for and suse_join
    | CreateTcb
    | MoveTcb(m: Moving)
    | Wait(sem: int, blocks: bool, m: Moving)        // suse_wait and block
    | Signal(sem: int, wakes: bool, program: int)    // suse_signal, wakeup and notify_wakeup
    | WakeupThreads(program: int, moves: seq<Moving>)
    | LoadMain(program: int, m: Moving)              // the create(0) branch of schedule_short_term
    | MainExecSignal(program: int)
    | LogThread                                      // log_metrics(tcb)
    | LogAll(sems: seq<int>)                         // log_metrics(NULL)
    | JoinThreads(listener: int, admission: int, schedulers: seq<int>) // shutdown only
    | DestroyProgram(sems: seq<int>)                 // shutdown only

  /** What `end_suse` runs. */
  predicate Shutdown(s: Section) {
    s.JoinThreads? || s.DestroyProgram?
  }

  function Within(l: Lock, inner: Script): Script {
    [Acquire(l)] + inner + [Release(l)]
  }

  function GetProgramScript(): Script {
    Within(Clientes, []) + Within(Clientes, [])
  }

  function MoveScript(m: Moving): Script {
    Within(StateList,
      if m.Stays? then []
      else
        var removing := if m.removes then GetProgramScript() else [];
        var adding := if m.adds then GetProgramScript() else [];
        Within(Clientes, []) + removing + adding)
  }

  function MovesScript(moves: seq<Moving>): Script {
    if moves == [] then [] else MoveScript(moves[0]) + MovesScript(moves[1..])
  }

  function SemsScript(sems: seq<int>): Script {
    if sems == [] then [] else Within(SemMutex(sems[0]), []) + SemsScript(sems[1..])
  }

  function JoinsScript(ts: seq<int>): Script {
    if ts == [] then [] else [JoinThread(ts[0])] + JoinsScript(ts[1..])
  }

  function ScriptOf(s: Section): Script {
    match s
    case GetProgram => GetProgramScript()
    case Look => Within(StateList, [])
    case CreateTcb => Within(StateList, Within(Clientes, []))
    case MoveTcb(m) => MoveScript(m)
    case Wait(sem, blocks, m) => Within(SemMutex(sem), if blocks then MoveScript(m) else [])
    case Signal(sem, wakes, p) =>
      Within(SemMutex(sem), if wakes then GetProgramScript() + Within(WakeupMutex(p), []) else [])
    case WakeupThreads(p, moves) => Within(WakeupMutex(p), MovesScript(moves))
    case LoadMain(p, m) => [PassMain(p)] + MoveScript(m)
    case MainExecSignal(p) => GetProgramScript() + [OpenMain(p)]
    case LogThread => Within(Metrics, Within(StateList, GetProgramScript()))
    case LogAll(sems) => Within(Metrics, Within(StateList, Within(Clientes, [])) + SemsScript(sems))
    case JoinThreads(listener, admission, schedulers) =>
      [JoinThread(listener), JoinThread(admission)] + Within(Clientes, JoinsScript(schedulers))
    case DestroyProgram(sems) => Within(Clientes, Within(StateList, SemsScript(sems)))
  }

  // ---- the order ----

  ghost predicate Below(held: set<Lock>, l: Lock) {
    forall h :: h in held ==> Rank(h) < Rank(l)
  }

  /** The script takes locks in increasing rank only, waits at a gate only with none in hand, waits for no thread,
      releases only what it holds, and ends with nothing. */
  ghost predicate Ordered(script: Script, held: set<Lock>) {
    if script == [] then held == {}
    else
      match script[0]
      case Acquire(l) => Below(held, l) && Ordered(script[1..], held + {l})
      case Release(l) => l in held && Ordered(script[1..], held - {l})
      case PassMain(_) => held == {} && Ordered(script[1..], held)
      case OpenMain(_) => Ordered(script[1..], held)
      case JoinThread(_) => false
  }

  /** A script that keeps the order above `floor` wherever it is run, and leaves in hand what it found. */
  ghost predicate Nests(inner: Script, floor: int) {
    forall held: set<Lock>, rest: Script ::
      (forall h :: h in held ==> Rank(h) < floor) && Ordered(rest, held) ==> Ordered(inner + rest, held)
  }

  lemma EmptyNests(floor: int)
    ensures Nests([], floor)
  {
    forall held: set<Lock>, rest: Script | Ordered(rest, held) ensures Ordered([] + rest, held) {
      assert [] + rest == rest;
    }
  }

  lemma WithinNests(l: Lock, inner: Script, floor: int)
    requires floor <= Rank(l) && Nests(inner, Rank(l) + 1)
    ensures Nests(Within(l, inner), floor)
  {
    forall held: set<Lock>, rest: Script | (forall h :: h in held ==> Rank(h) < floor) && Ordered(rest, held)
      ensures Ordered(Within(l, inner) + rest, held)
    {
      var after := [Release(l)] + rest;
      assert after[1..] == rest && held + {l} - {l} == held;
      assert Ordered(after, held + {l});
      assert Ordered(inner + after, held + {l});
      assert Within(l, inner) + rest == [Acquire(l)] + (inner + after);
      assert ([Acquire(l)] + (inner + after))[1..] == inner + after;
    }
  }

  lemma BothNest(a: Script, b: Script, floor: int)
    requires Nests(a, floor) && Nests(b, floor)
    ensures Nests(a + b, floor)
  {
    forall held: set<Lock>, rest: Script | (forall h :: h in held ==> Rank(h) < floor) && Ordered(rest, held)
      ensures Ordered((a + b) + rest, held)
    {
      assert Ordered(b + rest, held);
      assert Ordered(a + (b + rest), held);
      assert (a + b) + rest == a + (b + rest);
    }
  }

  lemma GetProgramNests(floor: int)
    requires floor <= 4
    ensures Nests(Within(Clientes, []), floor) && Nests(GetProgramScript(), floor)
  {
    hide Nests;
    EmptyNests(5);
    WithinNests(Clientes, [], floor);
    BothNest(Within(Clientes, []), Within(Clientes, []), floor);
  }

  lemma MoveNests(m: Moving, floor: int)
    requires floor <= 3
    ensures Nests(MoveScript(m), floor)
  {
    hide Nests, GetProgramScript, Within;
    EmptyNests(4);
    GetProgramNests(4);
    if m.Moves? {
      var first := if m.removes then GetProgramScript() else [];
      var second := if m.adds then GetProgramScript() else [];
      BothNest(Within(Clientes, []), first, 4);
      BothNest(Within(Clientes, []) + first, second, 4);
      WithinNests(StateList, Within(Clientes, []) + first + second, floor);
    } else {
      WithinNests(StateList, [], floor);
    }
  }

  lemma {:induction false} MovesNest(moves: seq<Moving>, floor: int)
    requires floor <= 3
    ensures Nests(MovesScript(moves), floor)
  {
    hide Nests, MoveScript;
    if moves == [] {
      EmptyNests(floor);
    } else {
      MoveNests(moves[0], floor);
      MovesNest(moves[1..], floor);
      BothNest(MoveScript(moves[0]), MovesScript(moves[1..]), floor);
    }
  }

  lemma {:induction false} SemsNest(sems: seq<int>)
    ensures Nests(SemsScript(sems), 1)
  {
    hide Nests, Within;
    if sems == [] {
      EmptyNests(1);
    } else {
      EmptyNests(2);
      WithinNests(SemMutex(sems[0]), [], 1);
      SemsNest(sems[1..]);
      BothNest(Within(SemMutex(sems[0]), []), SemsScript(sems[1..]), 1);
    }
  }

  lemma SectionNests(s: Section)
    requires !s.LoadMain? && !s.MainExecSignal? && !Shutdown(s)
    ensures Nests(ScriptOf(s), 0)
  {
    hide Nests, MoveScript, GetProgramScript, MovesScript, SemsScript, Within;
    match s {
      case GetProgram => GetProgramNests(0);
      case Look => EmptyNests(4); WithinNests(StateList, [], 0);
      case CreateTcb => GetProgramNests(4); WithinNests(StateList, Within(Clientes, []), 0);
      case MoveTcb(m) => MoveNests(m, 0);
      case Wait(sem, blocks, m) =>
        EmptyNests(2);
        MoveNests(m, 2);
        WithinNests(SemMutex(sem), if blocks then MoveScript(m) else [], 0);
      case Signal(sem, wakes, p) =>
        EmptyNests(2);
        EmptyNests(3);
        GetProgramNests(2);
        WithinNests(WakeupMutex(p), [], 2);
        BothNest(GetProgramScript(), Within(WakeupMutex(p), []), 2);
        WithinNests(SemMutex(sem), if wakes then GetProgramScript() + Within(WakeupMutex(p), []) else [], 0);
      case WakeupThreads(p, moves) => MovesNest(moves, 3); WithinNests(WakeupMutex(p), MovesScript(moves), 0);
      case LogThread =>
        GetProgramNests(4);
        WithinNests(StateList, GetProgramScript(), 1);
        WithinNests(Metrics, Within(StateList, GetProgramScript()), 0);
      case LogAll(sems) =>
        GetProgramNests(4);
        WithinNests(StateList, Within(Clientes, []), 1);
        SemsNest(sems);
        BothNest(Within(StateList, Within(Clientes, [])), SemsScript(sems), 1);
        WithinNests(Metrics, Within(StateList, Within(Clientes, [])) + SemsScript(sems), 0);
    }
  }

  lemma NestsAlone(inner: Script)
    requires Nests(inner, 0)
    ensures Ordered(inner, {})
  {
    assert Ordered([], {});
    assert Ordered(inner + [], {});
    assert inner + [] == inner;
  }

  /** Every critical section outside shutdown takes its mutexes in strictly increasing rank: metrics, one semaphore, a
      wakeup list, the state lists, the clients; the gate is passed with none in hand. */
  lemma SectionsOrdered(s: Section)
    requires !Shutdown(s)
    ensures Ordered(ScriptOf(s), {})
  {
    if s.LoadMain? {
      MoveNests(s.m, 0);
      NestsAlone(MoveScript(s.m));
      assert ScriptOf(s)[1..] == MoveScript(s.m);
    } else if s.MainExecSignal? {
      GetProgramNests(0);
      var open: Script := [OpenMain(s.program)];
      assert open[1..] == [] && Ordered(open, {});
    } else {
      SectionNests(s);
      NestsAlone(ScriptOf(s));
    }
  }

  /** The order is kept by exactly the sections outside shutdown. */
  lemma OrderedIff(s: Section)
    ensures Ordered(ScriptOf(s), {}) <==> !Shutdown(s)
  {
    if !Shutdown(s) {
      SectionsOrdered(s);
    } else if s.DestroyProgram? {
      var script := ScriptOf(s);
      assert script[0] == Acquire(Clientes) && script[1..][0] == Acquire(StateList);
      assert !Below({Clientes}, StateList);
    } else {
      assert ScriptOf(s)[0] == JoinThread(s.listener);
    }
  }

  // ---- any number of threads ----

  /** `left` maps each thread to what remains of the section it is in. */
  datatype Locks = Locks(left: map<int, Script>, owner: map<Lock, int>, open: set<int>, ended: set<int>)

  /** A thread begins a section, takes one step of it, or ends between two sections. */
  datatype Act = Begin(t: int, s: Section) | Run(t: int) | End(t: int)

  const NO_THREADS: Locks := Locks(map[], map[], {}, {})

  predicate Between(g: Locks, t: int) {
    t !in g.ended && (t !in g.left || g.left[t] == [])
  }

  ghost predicate Enabled(g: Locks, a: Act) {
    match a
    case Begin(t, _) => Between(g, t)
    case End(t) => Between(g, t)
    case Run(t) =>
      && t in g.left && g.left[t] != []
      && match g.left[t][0] {
           case Acquire(l) => l !in g.owner
           case Release(_) => true
           case PassMain(p) => p in g.open
           case OpenMain(_) => true
           case JoinThread(u) => u in g.ended
         }
  }

  ghost function Next(g: Locks, a: Act): Locks
    requires Enabled(g, a)
  {
    match a
    case Begin(t, s) => g.(left := g.left[t := ScriptOf(s)])
    case End(t) => g.(ended := g.ended + {t})
    case Run(t) =>
      var g' := g.(left := g.left[t := g.left[t][1..]]);
      match g.left[t][0]
      case Acquire(l) => g'.(owner := g.owner[l := t])
      case Release(l) => g'.(owner := g.owner - {l})
      case PassMain(_) => g'
      case OpenMain(p) => g'.(open := g.open + {p})
      case JoinThread(_) => g'
  }

  ghost function Held(g: Locks, t: int): set<Lock> {
    set l | l in g.owner && g.owner[l] == t
  }

  ghost predicate LocksOk(g: Locks) {
    && (forall l :: l in g.owner ==> g.owner[l] in g.left)
    && forall t :: t in g.left ==> Ordered(g.left[t], Held(g, t))
  }

  lemma StepKeepsOrder(g: Locks, a: Act)
    requires LocksOk(g) && Enabled(g, a) && (a.Begin? ==> !Shutdown(a.s))
    ensures LocksOk(Next(g, a))
  {
    var g' := Next(g, a);
    forall t | t in g'.left ensures Ordered(g'.left[t], Held(g', t)) {
      if t != a.t || a.End? {
        assert Held(g', t) == Held(g, t);
      } else if a.Begin? {
        SectionsOrdered(a.s);
        assert Held(g', t) == Held(g, t) == {};
      } else {
        match g.left[t][0] {
          case Acquire(l) => assert Held(g', t) == Held(g, t) + {l};
          case Release(l) => assert Held(g', t) == Held(g, t) - {l};
          case PassMain(_) => assert Held(g', t) == Held(g, t);
          case OpenMain(_) => assert Held(g', t) == Held(g, t);
        }
      }
    }
  }

  /** A run outside shutdown. */
  ghost predicate LockRun(states: seq<Locks>, acts: seq<Act>) {
    && |states| == |acts| + 1 && states[0] == NO_THREADS
    && forall i :: 0 <= i < |acts| ==>
         && Enabled(states[i], acts[i]) && states[i + 1] == Next(states[i], acts[i])
         && (acts[i].Begin? ==> !Shutdown(acts[i].s))
  }

  lemma {:induction false} RunKeepsOrder(states: seq<Locks>, acts: seq<Act>, i: nat)
    requires LockRun(states, acts) && i < |states|
    ensures LocksOk(states[i])
  {
    if i > 0 {
      RunKeepsOrder(states, acts, i - 1);
      StepKeepsOrder(states[i - 1], acts[i - 1]);
    }
  }

  // ---- no circular wait ----

  /** Thread `t` waits for a mutex that `u` owns. */
  ghost predicate WaitsFor(g: Locks, t: int, u: int) {
    && t in g.left && g.left[t] != [] && g.left[t][0].Acquire?
    && g.left[t][0].l in g.owner && g.owner[g.left[t][0].l] == u
  }

  /** Each thread of the chain waits for the next. */
  ghost predicate WaitChain(g: Locks, chain: seq<int>) {
    forall j :: 0 <= j < |chain| - 1 ==> WaitsFor(g, chain[j], chain[j + 1])
  }

  lemma WaitClimbs(g: Locks, t: int, u: int, v: int)
    requires LocksOk(g) && WaitsFor(g, t, u) && WaitsFor(g, u, v)
    ensures Rank(g.left[t][0].l) < Rank(g.left[u][0].l)
  {
    assert g.left[t][0].l in Held(g, u);
  }

  /** Along a chain of waiting threads the awaited ranks climb. */
  lemma {:induction false} ChainClimbs(g: Locks, chain: seq<int>, last: int)
    requires LocksOk(g) && chain != [] && WaitChain(g, chain) && WaitsFor(g, chain[|chain| - 1], last)
    ensures WaitsFor(g, chain[0], if |chain| > 1 then chain[1] else last)
    ensures Rank(g.left[chain[0]][0].l) <= Rank(g.left[chain[|chain| - 1]][0].l)
  {
    if |chain| > 1 {
      assert WaitsFor(g, chain[0], chain[1]);
      assert forall j :: 0 <= j < |chain[1..]| - 1 ==>
        chain[1..][j] == chain[j + 1] && WaitsFor(g, chain[j + 1], chain[j + 2]);
      ChainClimbs(g, chain[1..], last);
      WaitClimbs(g, chain[0], chain[1], if |chain| > 2 then chain[2] else last);
    }
  }

  /** No circular wait in any reachable state: no ring of threads, of any length, in which each waits for the next. */
  lemma NoCircularWait(states: seq<Locks>, acts: seq<Act>, i: nat, ring: seq<int>)
    requires LockRun(states, acts) && i < |states| && ring != [] && WaitChain(states[i], ring)
    ensures !WaitsFor(states[i], ring[|ring| - 1], ring[0])
  {
    RunKeepsOrder(states, acts, i);
    var g := states[i];
    if WaitsFor(g, ring[|ring| - 1], ring[0]) {
      ChainClimbs(g, ring, ring[0]);
      WaitClimbs(g, ring[|ring| - 1], ring[0], if |ring| > 1 then ring[1] else ring[0]);
    }
  }

  /** From a thread with a lock in hand or one to take, following who holds what it waits for leads to a thread that
      can go on. */
  lemma {:induction false} SomeoneCanRun(g: Locks, t: int) returns (free: int)
    requires LocksOk(g) && t in g.left && g.left[t] != []
    requires Held(g, t) != {} || g.left[t][0].Acquire?
    ensures Enabled(g, Run(free))
    ensures exists chain :: chain != [] && chain[0] == t && chain[|chain| - 1] == free && WaitChain(g, chain)
    decreases if g.left[t][0].Acquire? then 5 - Rank(g.left[t][0].l) else 0
  {
    free := t;
    ghost var chain := [t];
    if g.left[t][0].Acquire? && g.left[t][0].l in g.owner {
      var l := g.left[t][0].l;
      var holder := g.owner[l];
      assert l in Held(g, holder);
      assert holder != t && g.left[holder] != [];
      free := SomeoneCanRun(g, holder);
      var longer :| longer != [] && longer[0] == holder && longer[|longer| - 1] == free && WaitChain(g, longer);
      chain := [t] + longer;
      assert forall j :: 0 < j < |chain| - 1 ==> chain[j] == longer[j - 1] && chain[j + 1] == longer[j];
      assert WaitsFor(g, chain[0], chain[1]);
    }
    assert WaitChain(g, chain);
  }

  /** No deadlock: in every reachable state, whatever the number of programs and threads, a thread inside a section and
      not at a closed gate can take its next step, or the chain of threads it waits for ends in one that can. */
  lemma NoDeadlock(states: seq<Locks>, acts: seq<Act>, i: nat, t: int) returns (free: int)
    requires LockRun(states, acts) && i < |states|
    requires t in states[i].left && states[i].left[t] != [] && !states[i].left[t][0].PassMain?
    ensures Enabled(states[i], Run(free))
    ensures exists chain :: chain != [] && chain[0] == t && chain[|chain| - 1] == free && WaitChain(states[i], chain)
  {
    RunKeepsOrder(states, acts, i);
    if states[i].left[t][0].Acquire? {
      free := SomeoneCanRun(states[i], t);
    } else {
      free := t;
      assert WaitChain(states[i], [t]);
    }
  }

  /** A thread waiting at a closed gate holds no mutex, so it keeps nobody else waiting. */
  lemma GateHoldsNothing(states: seq<Locks>, acts: seq<Act>, i: nat, t: int)
    requires LockRun(states, acts) && i < |states|
    requires t in states[i].left && states[i].left[t] != [] && states[i].left[t][0].PassMain?
    ensures forall l :: l in states[i].owner ==> states[i].owner[l] != t
  {
    RunKeepsOrder(states, acts, i);
    assert forall l :: l in states[i].owner && states[i].owner[l] == t ==> l in Held(states[i], t);
  }
}
