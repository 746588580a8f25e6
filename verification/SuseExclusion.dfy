// What the mutexes of SUSE are for: which locks a thread holds at each point of a section, and which sections two
// threads are never inside at once.
module SuseExclusion {
  import opened SuseLocks
  import opened SuseShutdown

  // ---- the locks a thread holds ----

  /** Thread `t` is in section `s` with its first `k` instructions behind it. */
  ghost predicate AtPart(g: Locks, t: int, s: Section, k: nat) {
    t in g.left && k <= |ScriptOf(s)| && g.left[t] == ScriptOf(s)[k..]
  }

  lemma SameWithout(a: set<Lock>, b: set<Lock>, l: Lock)
    requires (l in a <==> l in b) && (a + {l} == b + {l} || a - {l} == b - {l})
    ensures a == b
  {
    forall x | x != l ensures x in a <==> x in b {
      assert x in a + {l} <==> x in a;
      assert x in b + {l} <==> x in b;
      assert x in a - {l} <==> x in a;
      assert x in b - {l} <==> x in b;
    }
  }

  /** What is left of a section that keeps the order tells what its thread holds. */
  lemma {:induction false} HeldIsForced(script: Script, a: set<Lock>, b: set<Lock>)
    requires Ordered(script, a) && Ordered(script, b)
    ensures a == b
  {
    if script != [] {
      match script[0]
      case Acquire(l) =>
        HeldIsForced(script[1..], a + {l}, b + {l});
        SameWithout(a, b, l);
      case Release(l) =>
        HeldIsForced(script[1..], a - {l}, b - {l});
        SameWithout(a, b, l);
      case PassMain(_) => HeldIsForced(script[1..], a, b);
      case OpenMain(_) => HeldIsForced(script[1..], a, b);
    }
  }

  lemma {:induction false} OrderedAfter(script: Script, held: set<Lock>, k: nat)
    requires Ordered(script, held) && k <= |script|
    ensures Ordered(script[k..], HeldAfter(script[..k], held))
  {
    if k > 0 {
      var next := match script[0] case Acquire(l) => held + {l} case Release(l) => held - {l} case _ => held;
      OrderedAfter(script[1..], next, k - 1);
      assert script[..k][0] == script[0] && script[..k][1..] == script[1..][..k - 1];
      assert script[1..][k - 1..] == script[k..];
    }
  }

  /** In every reachable state a thread inside a section holds exactly what the section's instructions so far leave. */
  lemma HeldExactly(states: seq<Locks>, acts: seq<Act>, i: nat, t: int, s: Section, k: nat)
    requires LockRun(states, acts) && i < |states| && AtPart(states[i], t, s, k) && !Shutdown(s)
    ensures Held(states[i], t) == HeldAfter(ScriptOf(s)[..k], {})
  {
    hide Ordered, HeldAfter, ScriptOf;
    RunKeepsOrder(states, acts, i);
    SectionsOrdered(s);
    OrderedAfter(ScriptOf(s), {}, k);
    HeldIsForced(ScriptOf(s)[k..], Held(states[i], t), HeldAfter(ScriptOf(s)[..k], {}));
  }

  /** So two threads never hold the same lock by what they have run of their sections. */
  lemma Disjoint(states: seq<Locks>, acts: seq<Act>, i: nat, t: int, s: Section, k: nat, u: int, r: Section, m: nat)
    requires LockRun(states, acts) && i < |states| && t != u && !Shutdown(s) && !Shutdown(r)
    requires AtPart(states[i], t, s, k) && AtPart(states[i], u, r, m)
    ensures HeldAfter(ScriptOf(s)[..k], {}) !! HeldAfter(ScriptOf(r)[..m], {})
  {
    HeldExactly(states, acts, i, t, s, k);
    HeldExactly(states, acts, i, u, r, m);
    assert Held(states[i], t) !! Held(states[i], u);
  }

  // ---- what each section works under ----

  datatype Data = Lists | Semaphore(sem: int) | WakeupList(program: int) | Metrics | Nothing

  /** The shared data that the whole of a section works on. */
  function WorksOn(s: Section): Data {
    match s
    case Look => Lists
    case CreateTcb => Lists
    case MoveTcb(_) => Lists
    case Wait(sem, _, _) => Semaphore(sem)
    case Signal(sem, _, _) => Semaphore(sem)
    case WakeupThreads(p, _) => WakeupList(p)
    case LogThread => Data.Metrics
    case LogAll(_) => Data.Metrics
    case _ => Nothing
  }

  function MutexOf(d: Data): Lock
    requires !d.Nothing?
  {
    match d
    case Lists => StateList
    case Semaphore(sem) => SemMutex(sem)
    case WakeupList(p) => WakeupMutex(p)
    case Metrics => Lock.Metrics
  }

  lemma {:induction false} StaysHeld(script: Script, held: set<Lock>, l: Lock)
    requires l in held && Release(l) !in script
    ensures l in HeldAfter(script, held)
  {
    if script != [] {
      assert script[0] in script && forall x :: x in script[1..] ==> x in script;
      StaysHeld(script[1..], match script[0] case Acquire(x) => held + {x} case Release(x) => held - {x} case _ => held,
        l);
    }
  }

  lemma WithinHeld(l: Lock, inner: Script, k: nat)
    requires Release(l) !in inner && 0 < k < |Within(l, inner)|
    ensures l in HeldAfter(Within(l, inner)[..k], {})
  {
    var script := Within(l, inner)[..k];
    assert script[0] == Acquire(l) && script[1..] == inner[..k - 1];
    assert forall x :: x in inner[..k - 1] ==> x in inner;
    StaysHeld(script[1..], {} + {l}, l);
  }

  lemma {:induction false} MovesKeep(moves: seq<Moving>, p: int)
    ensures Release(WakeupMutex(p)) !in MovesScript(moves)
  {
    hide MoveScript;
    if moves != [] {
      MoveKeeps(moves[0]);
      MovesKeep(moves[1..], p);
    }
  }

  /** A move releases only the state lists and the clients. */
  lemma MoveKeeps(m: Moving)
    ensures forall x :: x in MoveScript(m) && x.Release? ==> x.l == StateList || x.l == Clientes
  {}

  lemma {:induction false} SemsKeep(sems: seq<int>)
    ensures Release(Lock.Metrics) !in SemsScript(sems)
  {
    if sems != [] {
      SemsKeep(sems[1..]);
    }
  }

  /** Strictly inside a section its thread holds the mutex of the data the section works on. */
  lemma GuardedInside(s: Section, k: nat)
    requires !WorksOn(s).Nothing? && 0 < k < |ScriptOf(s)|
    ensures MutexOf(WorksOn(s)) in HeldAfter(ScriptOf(s)[..k], {})
  {
    hide HeldAfter, Within, MovesScript, SemsScript;
    InnerKeeps(s);
    match s
    case Look => WithinHeld(StateList, [], k);
    case CreateTcb => WithinHeld(StateList, Within(Clientes, []), k);
    case MoveTcb(m) => WithinHeld(StateList, MoveInner(m), k);
    case Wait(sem, blocks, m) => WithinHeld(SemMutex(sem), if blocks then MoveScript(m) else [], k);
    case Signal(sem, wakes, p) =>
      WithinHeld(SemMutex(sem), if wakes then GetProgramScript() + Within(WakeupMutex(p), []) else [], k);
    case WakeupThreads(p, moves) => WithinHeld(WakeupMutex(p), MovesScript(moves), k);
    case LogThread => WithinHeld(Lock.Metrics, Within(StateList, GetProgramScript()), k);
    case LogAll(sems) => WithinHeld(Lock.Metrics, Within(StateList, Within(Clientes, [])) + SemsScript(sems), k);
  }

  /** What `move_tcb_to` does under the state lists' mutex. */
  function MoveInner(m: Moving): Script {
    if m.Stays? then []
    else
      var removing := if m.removes then GetProgramScript() else [];
      var adding := if m.adds then GetProgramScript() else [];
      Within(Clientes, []) + removing + adding
  }

  /** Inside, no section releases its own mutex. */
  lemma InnerKeeps(s: Section)
    ensures s.MoveTcb? ==> Release(StateList) !in MoveInner(s.m)
    ensures s.Wait? ==> Release(SemMutex(s.sem)) !in MoveScript(s.m)
    ensures s.Signal? ==> Release(SemMutex(s.sem)) !in GetProgramScript() + Within(WakeupMutex(s.program), [])
    ensures s.WakeupThreads? ==> Release(WakeupMutex(s.program)) !in MovesScript(s.moves)
    ensures s.LogThread? ==> Release(Lock.Metrics) !in Within(StateList, GetProgramScript())
    ensures s.LogAll? ==> Release(Lock.Metrics) !in Within(StateList, Within(Clientes, [])) + SemsScript(s.sems)
    ensures s.CreateTcb? ==> Release(StateList) !in Within(Clientes, [])
  {
    match s
    case Wait(_, _, m) => MoveKeeps(m);
    case WakeupThreads(p, moves) => MovesKeep(moves, p);
    case LogAll(sems) => SemsKeep(sems);
    case _ =>
  }

  /** Two threads are never at once strictly inside sections that work on the same data: the state lists, one
      semaphore, one program's wakeup list, or the metrics. */
  lemma SectionsExclude(states: seq<Locks>, acts: seq<Act>, i: nat, t: int, s: Section, k: nat,
      u: int, r: Section, m: nat)
    requires LockRun(states, acts) && i < |states| && AtPart(states[i], t, s, k) && AtPart(states[i], u, r, m)
    requires WorksOn(s) == WorksOn(r) && !WorksOn(s).Nothing?
    requires 0 < k < |ScriptOf(s)| && 0 < m < |ScriptOf(r)|
    ensures t == u
  {
    hide ScriptOf, HeldAfter;
    GuardedInside(s, k);
    GuardedInside(r, m);
    if t != u {
      NoShutdownData(s);
      NoShutdownData(r);
      Disjoint(states, acts, i, t, s, k, u, r, m);
    }
  }

  lemma NoShutdownData(s: Section)
    requires !WorksOn(s).Nothing?
    ensures !Shutdown(s)
  {}

  /** Where a waking signal puts the thread on the wakeup list of `p`. */
  const NOTIFIES: nat := 6

  lemma NotifyHeld(sem: int, p: int)
    ensures |ScriptOf(Signal(sem, true, p))| > NOTIFIES
    ensures WakeupMutex(p) in HeldAfter(ScriptOf(Signal(sem, true, p))[..NOTIFIES], {})
  {
    var script := ScriptOf(Signal(sem, true, p));
    assert script == [Acquire(SemMutex(sem))] + GetProgramScript() + [Acquire(WakeupMutex(p)), Release(WakeupMutex(p)),
                      Release(SemMutex(sem))];
    var before := [Acquire(SemMutex(sem))] + GetProgramScript();
    var at: Script := [Acquire(WakeupMutex(p))];
    assert script[..NOTIFIES] == before + at;
    ClashSplit(before, at, {}, []);
    assert at[1..] == [];
  }

  /** Nobody adds to a program's wakeup list while the program is going through it. */
  lemma NotifyExcluded(states: seq<Locks>, acts: seq<Act>, i: nat, t: int, sem: int, u: int, p: int,
      moves: seq<Moving>, m: nat)
    requires LockRun(states, acts) && i < |states| && t != u && AtPart(states[i], t, Signal(sem, true, p), NOTIFIES)
    requires 0 < m < |ScriptOf(WakeupThreads(p, moves))|
    ensures !AtPart(states[i], u, WakeupThreads(p, moves), m)
  {
    hide ScriptOf, HeldAfter;
    NotifyHeld(sem, p);
    GuardedInside(WakeupThreads(p, moves), m);
    if AtPart(states[i], u, WakeupThreads(p, moves), m) {
      Disjoint(states, acts, i, t, Signal(sem, true, p), NOTIFIES, u, WakeupThreads(p, moves), m);
    }
  }
}
