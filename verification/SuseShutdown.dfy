// The two functions of SUSE's shutdown that take mutexes out of order, and exactly which critical sections they can
// deadlock with.
module SuseShutdown {
  import opened SuseLocks

  /** A run of the threads through the sections they are in. */
  ghost predicate Reaches(g: Locks, run: seq<int>, end: Locks)
    decreases |run|
  {
    if run == [] then g == end else Enabled(g, Run(run[0])) && Reaches(Next(g, Run(run[0])), run[1..], end)
  }

  lemma {:induction false} ReachesOn(g: Locks, a: seq<int>, mid: Locks, b: seq<int>, end: Locks)
    requires Reaches(g, a, mid) && Reaches(mid, b, end)
    ensures Reaches(g, a + b, end)
    decreases |a|
  {
    if a == [] {
      assert a + b == b;
    } else {
      ReachesOn(Next(g, Run(a[0])), a[1..], mid, b, end);
      assert (a + b)[1..] == a[1..] + b;
    }
  }

  lemma ReachesOne(g: Locks, t: int)
    requires Enabled(g, Run(t))
    ensures Reaches(g, [t], Next(g, Run(t)))
  {
    assert Reaches(Next(g, Run(t)), [t][1..], Next(g, Run(t)));
  }

  // ---- the sections a thread still runs ----

  function Sections(todo: seq<Section>): Script {
    if todo == [] then [] else ScriptOf(todo[0]) + Sections(todo[1..])
  }

  predicate Steady(todo: seq<Section>) {
    forall i :: 0 <= i < |todo| ==> !Shutdown(todo[i])
  }

  lemma {:induction false} OrderedOn(a: Script, held: set<Lock>, b: Script)
    requires Ordered(a, held) && Ordered(b, {})
    ensures Ordered(a + b, held)
  {
    if a == [] {
      assert a + b == b;
    } else {
      assert (a + b)[0] == a[0] && (a + b)[1..] == a[1..] + b;
      var held' := match a[0] case Acquire(l) => held + {l} case Release(l) => held - {l} case _ => held;
      OrderedOn(a[1..], held', b);
    }
  }

  lemma {:induction false} SectionsKeepOrder(todo: seq<Section>)
    requires Steady(todo)
    ensures Ordered(Sections(todo), {})
  {
    if todo != [] {
      SectionsOrdered(todo[0]);
      SectionsKeepOrder(todo[1..]);
      OrderedOn(ScriptOf(todo[0]), {}, Sections(todo[1..]));
    }
  }

  /** An instruction is ahead exactly when some section still to be run has it. */
  lemma {:induction false} InSections(todo: seq<Section>, x: Instr)
    ensures x in Sections(todo) <==> exists i :: 0 <= i < |todo| && x in ScriptOf(todo[i])
  {
    hide ScriptOf;
    if todo != [] {
      InSections(todo[1..], x);
      assert forall i :: 0 < i < |todo| ==> todo[i] == todo[1..][i - 1];
      assert forall i :: 0 <= i < |todo| - 1 ==> todo[1..][i] == todo[i + 1];
    }
  }

  // ---- a thread running alone ----

  /** What a thread holds after a script. */
  ghost function HeldAfter(script: Script, held: set<Lock>): set<Lock> {
    if script == [] then held
    else
      HeldAfter(script[1..],
        match script[0] case Acquire(l) => held + {l} case Release(l) => held - {l} case _ => held)
  }

  ghost predicate GatesOpen(g: Locks, script: Script) {
    forall p :: PassMain(p) in script ==> p in g.open
  }

  predicate NoneOpens(script: Script) {
    forall x :: x in script ==> !x.OpenMain?
  }

  /** Only `t` holds anything. */
  ghost predicate Alone(g: Locks, t: int) {
    t in g.left && forall l :: l in g.owner ==> g.owner[l] == t
  }

  /** With nobody else holding a lock, a thread runs through any part of a section that keeps the order. */
  lemma {:induction false} RunAlone(g: Locks, t: int, k: nat) returns (run: seq<int>, end: Locks)
    requires Alone(g, t) && k <= |g.left[t]| && Ordered(g.left[t], Held(g, t)) && GatesOpen(g, g.left[t][..k])
    ensures Reaches(g, run, end) && Alone(end, t) && end.left == g.left[t := g.left[t][k..]]
    ensures Held(end, t) == HeldAfter(g.left[t][..k], Held(g, t)) && Ordered(end.left[t], Held(end, t))
    ensures end.ended == g.ended && (NoneOpens(g.left[t][..k]) ==> end.open == g.open)
    decreases k
  {
    if k == 0 {
      run, end := [], g;
    } else {
      var script := g.left[t];
      var ahead := script[..k];
      assert script[1..][..k - 1] == ahead[1..] && script[1..][k - 1..] == script[k..] && ahead[0] == script[0];
      assert ahead[0] in ahead && forall x :: x in ahead[1..] ==> x in ahead;
      var next := FirstAlone(g, t);
      run, end := RunAlone(next, t, k - 1);
      run := [t] + run;
    }
  }

  lemma FirstAlone(g: Locks, t: int) returns (next: Locks)
    requires Alone(g, t) && g.left[t] != [] && Ordered(g.left[t], Held(g, t))
    requires g.left[t][0].PassMain? ==> g.left[t][0].program in g.open
    ensures Enabled(g, Run(t)) && next == Next(g, Run(t)) && Alone(next, t)
    ensures next.left == g.left[t := g.left[t][1..]] && Ordered(next.left[t], Held(next, t))
    ensures next.ended == g.ended && g.open <= next.open && (!g.left[t][0].OpenMain? ==> next.open == g.open)
    ensures Held(next, t) == match g.left[t][0] case Acquire(l) => Held(g, t) + {l} case Release(l) => Held(g, t) - {l}
                                                case _ => Held(g, t)
  {
    assert forall l :: l in g.owner ==> l in Held(g, t);
    next := Next(g, Run(t));
    assert Held(next, t) == match g.left[t][0] case Acquire(l) => Held(g, t) + {l} case Release(l) => Held(g, t) - {l}
                                               case _ => Held(g, t);
  }

  // ---- destroy_program beside one other section ----

  /** Taking `l` with `held` in hand goes against `destroy_program`, which takes the clients, then the state lists,
      then each semaphore. */
  ghost predicate Against(l: Lock, held: set<Lock>, sems: seq<int>) {
    || (l == Clientes && StateList in held)
    || (l in {Clientes, StateList} && exists i :: i in sems && SemMutex(i) in held)
  }

  /** Somewhere the script takes a lock against that order. */
  ghost predicate Clashes(script: Script, held: set<Lock>, sems: seq<int>) {
    script != [] &&
    match script[0]
    case Acquire(l) => Against(l, held, sems) || Clashes(script[1..], held + {l}, sems)
    case Release(l) => Clashes(script[1..], held - {l}, sems)
    case _ => Clashes(script[1..], held, sems)
  }

  /** Every lock a script takes is one `destroy_program` takes, with in hand exactly what it has then. */
  ghost predicate Destroys(script: Script, held: set<Lock>, sems: seq<int>) {
    script == [] ||
    match script[0]
    case Acquire(l) =>
      && (l == Clientes ==> held == {}) && (l == StateList ==> held == {Clientes})
      && (l.SemMutex? ==> l.sem in sems && held == {Clientes, StateList}) && !l.Metrics? && !l.WakeupMutex?
      && Destroys(script[1..], held + {l}, sems)
    case Release(l) => l in held && Destroys(script[1..], held - {l}, sems)
    case _ => false
  }

  lemma {:induction false} SemsDestroy(some: seq<int>, rest: Script, sems: seq<int>)
    requires (forall i :: i in some ==> i in sems) && Destroys(rest, {Clientes, StateList}, sems)
    ensures Destroys(SemsScript(some) + rest, {Clientes, StateList}, sems)
  {
    if some == [] {
      assert SemsScript(some) + rest == rest;
    } else {
      var tail := SemsScript(some[1..]) + rest;
      SemsDestroy(some[1..], rest, sems);
      var sem := SemMutex(some[0]);
      var script := [Acquire(sem), Release(sem)] + tail;
      assert SemsScript(some) + rest == script;
      assert script[1..][0] == Release(sem) && script[1..][1..] == tail;
      assert {Clientes, StateList} + {sem} - {sem} == {Clientes, StateList};
    }
  }

  lemma ClosingDestroys(sems: seq<int>)
    ensures Destroys([Release(StateList), Release(Clientes)], {Clientes, StateList}, sems)
  {
    var last: Script := [Release(Clientes)];
    assert [Release(StateList), Release(Clientes)][1..] == last && last[1..] == [];
    assert {Clientes, StateList} - {StateList} == {Clientes};
    assert Destroys(last, {Clientes}, sems);
  }

  lemma OpeningDestroys(inner: Script, sems: seq<int>)
    requires Destroys(inner, {Clientes, StateList}, sems)
    ensures Destroys([Acquire(Clientes), Acquire(StateList)] + inner, {}, sems)
  {
    var second := [Acquire(StateList)] + inner;
    assert second[1..] == inner && {Clientes} + {StateList} == {Clientes, StateList};
    assert Destroys(second, {Clientes}, sems);
    var script := [Acquire(Clientes), Acquire(StateList)] + inner;
    assert script[1..] == second && {} + {Clientes} == {Clientes};
  }

  lemma DestroyDestroys(sems: seq<int>)
    ensures Destroys(ScriptOf(DestroyProgram(sems)), {}, sems)
  {
    hide Destroys, SemsScript, Within;
    ClosingDestroys(sems);
    SemsDestroy(sems, [Release(StateList), Release(Clientes)], sems);
    OpeningDestroys(SemsScript(sems) + [Release(StateList), Release(Clientes)], sems);
    TwoLocks(SemsScript(sems));
  }

  lemma TwoLocks(inner: Script)
    ensures Within(Clientes, Within(StateList, inner))
         == [Acquire(Clientes), Acquire(StateList)] + (inner + [Release(StateList), Release(Clientes)])
  {}

  /** Thread 1 has entered `destroy_program` and thread 2 still runs `todo`; the gates are open. */
  ghost predicate Entered(g: Locks, todo: seq<Section>, sems: seq<int>) {
    && g.left == map[1 := ScriptOf(DestroyProgram(sems)), 2 := Sections(todo)] && g.owner == map[]
    && GatesOpen(g, Sections(todo))
  }

  ghost predicate Deadlocked(g: Locks) {
    WaitsFor(g, 1, 2) && WaitsFor(g, 2, 1)
  }

  /** What every state reached from there keeps. */
  ghost predicate PairOk(g: Locks, todo: seq<Section>, sems: seq<int>) {
    && g.left.Keys == {1, 2} && Destroys(g.left[1], Held(g, 1), sems) && Ordered(g.left[2], Held(g, 2))
    && (Clashes(g.left[2], Held(g, 2), sems) ==> Clashes(Sections(todo), {}, sems))
  }

  lemma PairKept(g: Locks, t: int, todo: seq<Section>, sems: seq<int>)
    requires PairOk(g, todo, sems) && Enabled(g, Run(t))
    ensures PairOk(Next(g, Run(t)), todo, sems)
  {
    var next := Next(g, Run(t));
    assert t in g.left.Keys;
    var u := 3 - t;
    assert Held(next, u) == Held(g, u);
    assert Held(next, t) == match g.left[t][0] case Acquire(l) => Held(g, t) + {l} case Release(l) => Held(g, t) - {l}
                                               case _ => Held(g, t);
  }

  lemma {:induction false} PairReaches(g: Locks, run: seq<int>, end: Locks, todo: seq<Section>, sems: seq<int>)
    requires PairOk(g, todo, sems) && Reaches(g, run, end)
    ensures PairOk(end, todo, sems)
    decreases |run|
  {
    if run != [] {
      PairKept(g, run[0], todo, sems);
      PairReaches(Next(g, Run(run[0])), run[1..], end, todo, sems);
    }
  }

  /** In a deadlocked state the other section is about to take a lock against the order. */
  lemma DeadlockClashes(g: Locks, todo: seq<Section>, sems: seq<int>)
    requires PairOk(g, todo, sems) && Deadlocked(g)
    ensures Clashes(Sections(todo), {}, sems)
  {
    var x, y := g.left[1][0].l, g.left[2][0].l;
    assert x in Held(g, 2) && y in Held(g, 1);
  }

  lemma {:induction false} ClashAt(script: Script, held: set<Lock>, sems: seq<int>) returns (k: nat)
    requires Clashes(script, held, sems)
    ensures k < |script| && script[k].Acquire? && Against(script[k].l, HeldAfter(script[..k], held), sems)
  {
    var held' := match script[0] case Acquire(l) => held + {l} case Release(l) => held - {l} case _ => held;
    if script[0].Acquire? && Against(script[0].l, held, sems) {
      k := 0;
    } else {
      var rest := ClashAt(script[1..], held', sems);
      k := rest + 1;
      assert script[..k][1..] == script[1..][..rest];
    }
  }

  /** `destroy_program` goes through the semaphores until it meets one that thread 2 holds. */
  lemma {:induction false} RunSems(g: Locks, some: seq<int>, rest: Script) returns (run: seq<int>, end: Locks)
    requires 1 in g.left && g.left[1] == SemsScript(some) + rest
    requires exists i :: i in some && SemMutex(i) in g.owner
    requires forall i :: i in some && SemMutex(i) in g.owner ==> g.owner[SemMutex(i)] == 2
    ensures Reaches(g, run, end) && end.owner == g.owner && WaitsFor(end, 1, 2)
    ensures end.left.Keys == g.left.Keys && forall t :: t in g.left && t != 1 ==> end.left[t] == g.left[t]
    decreases |some|
  {
    var sem := SemMutex(some[0]);
    var tail := SemsScript(some[1..]) + rest;
    assert g.left[1] == [Acquire(sem), Release(sem)] + tail;
    if sem in g.owner {
      run, end := [], g;
    } else {
      var taken := Next(g, Run(1));
      assert taken.left[1] == [Release(sem)] + tail;
      var given := Next(taken, Run(1));
      assert given.left[1] == tail && given.owner == g.owner;
      run, end := RunSems(given, some[1..], rest);
      ReachesOne(g, 1);
      ReachesOne(taken, 1);
      ReachesOn(g, [1], taken, [1], given);
      ReachesOn(g, [1] + [1], given, run, end);
      run := [1] + [1] + run;
    }
  }

  /** With thread 2 about to take a lock against the order, `destroy_program` runs into it. */
  lemma DestroyRunsInto(g: Locks, l: Lock, sems: seq<int>) returns (run: seq<int>, end: Locks)
    requires 1 in g.left && 2 in g.left && Alone(g, 2) && g.left[1] == ScriptOf(DestroyProgram(sems))
    requires g.left[2] != [] && g.left[2][0] == Acquire(l)
    requires Against(l, Held(g, 2), sems) && Below(Held(g, 2), l)
    ensures Reaches(g, run, end) && Deadlocked(end)
  {
    hide SemsScript, Reaches, Within;
    var closing := [Release(StateList), Release(Clientes)];
    var held := Held(g, 2);
    assert forall x :: x in g.owner <==> x in held;
    TwoLocks(SemsScript(sems));
    var one := Next(g, Run(1));
    ReachesOne(g, 1);
    if StateList in held {
      run, end := [1], one;
    } else {
      assert one.left[1] == [Acquire(StateList)] + (SemsScript(sems) + closing);
      var two := Next(one, Run(1));
      assert two.left[1] == SemsScript(sems) + closing;
      var i :| i in sems && SemMutex(i) in held;
      assert SemMutex(i) in two.owner;
      var more, last := RunSems(two, sems, closing);
      ReachesOne(one, 1);
      ReachesOn(one, [1], two, more, last);
      ReachesOn(g, [1], one, [1] + more, last);
      run, end := [1] + ([1] + more), last;
    }
  }

  lemma ClashDeadlocks(g: Locks, todo: seq<Section>, sems: seq<int>) returns (run: seq<int>, end: Locks)
    requires Steady(todo) && Entered(g, todo, sems) && Clashes(Sections(todo), {}, sems)
    ensures Reaches(g, run, end) && Deadlocked(end)
  {
    hide Clashes, Sections, Against, HeldAfter;
    SectionsKeepOrder(todo);
    assert Held(g, 2) == {};
    var k := ClashAt(Sections(todo), {}, sems);
    var first, at := RunAlone(g, 2, k);
    var l := Sections(todo)[k].l;
    assert at.left[2][0] == Acquire(l);
    var more, last := DestroyRunsInto(at, l, sems);
    ReachesOn(g, first, at, more, last);
    run, end := first + more, last;
  }

  /** `destroy_program` and another thread can deadlock exactly when that thread has a lock to take against its order.
      */
  lemma DestroyDeadlockIff(g: Locks, todo: seq<Section>, sems: seq<int>)
    requires Steady(todo) && Entered(g, todo, sems)
    ensures (exists run, end :: Reaches(g, run, end) && Deadlocked(end)) <==> Clashes(Sections(todo), {}, sems)
  {
    hide Clashes, Sections, Deadlocked;
    if Clashes(Sections(todo), {}, sems) {
      var run, end := ClashDeadlocks(g, todo, sems);
    } else if exists run, end :: Reaches(g, run, end) && Deadlocked(end) {
      var run, end :| Reaches(g, run, end) && Deadlocked(end);
      SectionsKeepOrder(todo);
      DestroyDestroys(sems);
      assert Held(g, 1) == {} && Held(g, 2) == {};
      PairReaches(g, run, end, todo, sems);
      DeadlockClashes(end, todo, sems);
    }
  }

  // ---- which sections those are ----

  lemma {:induction false} ClashSplit(a: Script, b: Script, held: set<Lock>, sems: seq<int>)
    ensures Clashes(a + b, held, sems) <==> Clashes(a, held, sems) || Clashes(b, HeldAfter(a, held), sems)
    ensures HeldAfter(a + b, held) == HeldAfter(b, HeldAfter(a, held))
  {
    if a == [] {
      assert a + b == b;
    } else {
      var held' := match a[0] case Acquire(l) => held + {l} case Release(l) => held - {l} case _ => held;
      assert (a + b)[0] == a[0] && (a + b)[1..] == a[1..] + b;
      ClashSplit(a[1..], b, held', sems);
    }
  }

  /** The script gives back what it takes. */
  ghost predicate Returns(script: Script, held: set<Lock>) {
    HeldAfter(script, held) == held
  }

  lemma ClashWithin(l: Lock, inner: Script, held: set<Lock>, sems: seq<int>)
    requires l !in held && Returns(inner, held + {l})
    ensures Returns(Within(l, inner), held)
    ensures Clashes(Within(l, inner), held, sems) <==> Against(l, held, sems) || Clashes(inner, held + {l}, sems)
  {
    var closing: Script := [Release(l)];
    ClashSplit(inner, closing, held + {l}, sems);
    var script := [Acquire(l)] + (inner + closing);
    assert Within(l, inner) == script && script[1..] == inner + closing;
    assert closing[1..] == [] && held + {l} - {l} == held;
    assert HeldAfter(closing, held + {l}) == held && !Clashes(closing, held + {l}, sems);
  }

  lemma ClashBoth(a: Script, b: Script, held: set<Lock>, sems: seq<int>)
    requires Returns(a, held) && Returns(b, held)
    ensures Returns(a + b, held)
    ensures Clashes(a + b, held, sems) <==> Clashes(a, held, sems) || Clashes(b, held, sems)
  {
    ClashSplit(a, b, held, sems);
  }

  lemma ClashGetProgram(held: set<Lock>, sems: seq<int>)
    requires Clientes !in held
    ensures Returns(Within(Clientes, []), held) && Returns(GetProgramScript(), held)
    ensures Clashes(Within(Clientes, []), held, sems) <==> Against(Clientes, held, sems)
    ensures Clashes(GetProgramScript(), held, sems) <==> Against(Clientes, held, sems)
  {
    ClashWithin(Clientes, [], held, sems);
    ClashBoth(Within(Clientes, []), Within(Clientes, []), held, sems);
  }

  lemma ClashMove(m: Moving, held: set<Lock>, sems: seq<int>)
    requires StateList !in held && Clientes !in held
    ensures Returns(MoveScript(m), held)
    ensures Clashes(MoveScript(m), held, sems) <==> m.Moves? || Against(StateList, held, sems)
  {
    hide Clashes, HeldAfter, Within, GetProgramScript;
    var inside := held + {StateList};
    ClashNothing(inside, sems);
    if m.Moves? {
      var first := if m.removes then GetProgramScript() else [];
      var second := if m.adds then GetProgramScript() else [];
      ClashGetProgram(inside, sems);
      ClashBoth(Within(Clientes, []), first, inside, sems);
      ClashBoth(Within(Clientes, []) + first, second, inside, sems);
      ClashWithin(StateList, Within(Clientes, []) + first + second, held, sems);
    } else {
      ClashWithin(StateList, [], held, sems);
    }
  }

  lemma ClashNothing(held: set<Lock>, sems: seq<int>)
    ensures Returns([], held) && !Clashes([], held, sems)
  {}

  lemma {:induction false} ClashMoves(moves: seq<Moving>, held: set<Lock>, sems: seq<int>)
    requires StateList !in held && Clientes !in held && !Against(StateList, held, sems)
    ensures Returns(MovesScript(moves), held)
    ensures Clashes(MovesScript(moves), held, sems) <==> exists i :: 0 <= i < |moves| && moves[i].Moves?
  {
    hide Clashes, HeldAfter, MoveScript;
    if moves == [] {
      ClashNothing(held, sems);
    } else {
      ClashMove(moves[0], held, sems);
      ClashMoves(moves[1..], held, sems);
      ClashBoth(MoveScript(moves[0]), MovesScript(moves[1..]), held, sems);
      assert forall i :: 0 < i < |moves| ==> moves[i] == moves[1..][i - 1];
    }
  }

  lemma {:induction false} ClashSems(some: seq<int>, sems: seq<int>)
    ensures Returns(SemsScript(some), {Metrics}) && !Clashes(SemsScript(some), {Metrics}, sems)
  {
    hide Clashes, HeldAfter, Within;
    if some == [] {
      ClashNothing({Metrics}, sems);
    } else {
      ClashNothing({Metrics, SemMutex(some[0])}, sems);
      assert {Metrics} + {SemMutex(some[0])} == {Metrics, SemMutex(some[0])};
      ClashWithin(SemMutex(some[0]), [], {Metrics}, sems);
      ClashSems(some[1..], sems);
      ClashBoth(Within(SemMutex(some[0]), []), SemsScript(some[1..]), {Metrics}, sems);
    }
  }

  /** The sections that can deadlock with `destroy_program`: those that look a program up inside the state lists or a
      semaphore, or move a thread inside a semaphore. */
  predicate Meets(s: Section, sems: seq<int>) {
    match s
    case CreateTcb => true
    case MoveTcb(m) => m.Moves?
    case Wait(sem, blocks, m) => blocks && (m.Moves? || sem in sems)
    case Signal(sem, wakes, _) => wakes && sem in sems
    case WakeupThreads(_, moves) => exists i :: 0 <= i < |moves| && moves[i].Moves?
    case LoadMain(_, m) => m.Moves?
    case LogThread => true
    case LogAll(_) => true
    case _ => false
  }

  lemma ClashSignal(sem: int, wakes: bool, p: int, sems: seq<int>)
    ensures Clashes(ScriptOf(Signal(sem, wakes, p)), {}, sems) <==> wakes && sem in sems
  {
    hide Clashes, HeldAfter, Within, GetProgramScript;
    var l := SemMutex(sem);
    assert {} + {l} == {l};
    ClashNothing({l}, sems);
    ClashNothing({l} + {WakeupMutex(p)}, sems);
    ClashGetProgram({l}, sems);
    ClashWithin(WakeupMutex(p), [], {l}, sems);
    ClashBoth(GetProgramScript(), Within(WakeupMutex(p), []), {l}, sems);
    ClashWithin(l, if wakes then GetProgramScript() + Within(WakeupMutex(p), []) else [], {}, sems);
  }

  lemma ClashLogAll(some: seq<int>, sems: seq<int>)
    ensures Clashes(ScriptOf(LogAll(some)), {}, sems)
  {
    hide Clashes, HeldAfter, Within, SemsScript;
    assert {} + {Metrics} == {Metrics};
    ClashGetProgram({Metrics} + {StateList}, sems);
    ClashWithin(StateList, Within(Clientes, []), {Metrics}, sems);
    ClashSems(some, sems);
    ClashBoth(Within(StateList, Within(Clientes, [])), SemsScript(some), {Metrics}, sems);
    ClashWithin(Metrics, Within(StateList, Within(Clientes, [])) + SemsScript(some), {}, sems);
  }

  lemma ClashesIffMeets(s: Section, sems: seq<int>)
    requires !Shutdown(s)
    ensures Clashes(ScriptOf(s), {}, sems) <==> Meets(s, sems)
  {
    hide Clashes, HeldAfter, Within, GetProgramScript, MoveScript, MovesScript, SemsScript;
    match s {
      case GetProgram => ClashGetProgram({}, sems);
      case Look => ClashNothing({} + {StateList}, sems); ClashWithin(StateList, [], {}, sems);
      case CreateTcb =>
        ClashGetProgram({} + {StateList}, sems);
        ClashWithin(StateList, Within(Clientes, []), {}, sems);
      case MoveTcb(m) => ClashMove(m, {}, sems);
      case Wait(sem, blocks, m) =>
        ClashNothing({} + {SemMutex(sem)}, sems);
        ClashMove(m, {} + {SemMutex(sem)}, sems);
        ClashWithin(SemMutex(sem), if blocks then MoveScript(m) else [], {}, sems);
      case Signal(sem, wakes, p) => ClashSignal(sem, wakes, p, sems);
      case WakeupThreads(p, moves) =>
        ClashMoves(moves, {} + {WakeupMutex(p)}, sems);
        ClashWithin(WakeupMutex(p), MovesScript(moves), {}, sems);
      case LoadMain(p, m) =>
        ClashMove(m, {}, sems);
        ClashGates([PassMain(p)], MoveScript(m), sems);
      case MainExecSignal(p) =>
        ClashGetProgram({}, sems);
        ClashGates([OpenMain(p)], [], sems);
        ClashBoth(GetProgramScript(), [OpenMain(p)], {}, sems);
      case LogThread =>
        ClashGetProgram({Metrics} + {StateList}, sems);
        assert {} + {Metrics} == {Metrics};
        ClashWithin(StateList, GetProgramScript(), {Metrics}, sems);
        ClashWithin(Metrics, Within(StateList, GetProgramScript()), {}, sems);
      case LogAll(some) => ClashLogAll(some, sems);
    }
  }

  /** A gate takes no lock. */
  lemma ClashGates(gate: Script, rest: Script, sems: seq<int>)
    requires |gate| == 1 && (gate[0].PassMain? || gate[0].OpenMain?)
    ensures Returns(gate, {}) && !Clashes(gate, {}, sems)
    ensures Clashes(gate + rest, {}, sems) <==> Clashes(rest, {}, sems)
  {
    assert gate[1..] == [];
    ClashSplit(gate, rest, {}, sems);
  }

  lemma {:induction false} OrderedReturns(script: Script, held: set<Lock>)
    requires Ordered(script, held)
    ensures HeldAfter(script, held) == {}
  {
    if script != [] {
      var held' := match script[0] case Acquire(l) => held + {l} case Release(l) => held - {l} case _ => held;
      OrderedReturns(script[1..], held');
    }
  }

  lemma {:induction false} SectionsClash(todo: seq<Section>, sems: seq<int>)
    requires Steady(todo)
    ensures Clashes(Sections(todo), {}, sems) <==> exists i :: 0 <= i < |todo| && Meets(todo[i], sems)
  {
    hide Clashes, HeldAfter, ScriptOf, Meets;
    if todo == [] {
      ClashNothing({}, sems);
    } else {
      SectionsClash(todo[1..], sems);
      SectionsOrdered(todo[0]);
      OrderedReturns(ScriptOf(todo[0]), {});
      ClashSplit(ScriptOf(todo[0]), Sections(todo[1..]), {}, sems);
      ClashesIffMeets(todo[0], sems);
      assert forall i :: 0 < i < |todo| ==> todo[i] == todo[1..][i - 1];
      assert forall i :: 0 <= i < |todo| - 1 ==> todo[1..][i] == todo[i + 1];
    }
  }

  /** `destroy_program` and one other thread can deadlock exactly when one of the sections it still runs is one of
      those. */
  lemma DestroyMeetsIff(g: Locks, todo: seq<Section>, sems: seq<int>)
    requires Steady(todo) && Entered(g, todo, sems)
    ensures (exists run, end :: Reaches(g, run, end) && Deadlocked(end))
      <==> exists i :: 0 <= i < |todo| && Meets(todo[i], sems)
  {
    hide Clashes, Sections, Deadlocked, Meets;
    DestroyDeadlockIff(g, todo, sems);
    SectionsClash(todo, sems);
  }

  /** The metrics thread is detached, so it alone may still be at work when `end_suse` gets to `destroy_program`; in
      `log_metrics(NULL)` the two deadlock. */
  lemma MetricsDeadlock(sems: seq<int>) returns (run: seq<int>, end: Locks)
    ensures Enabled(NO_THREADS, Begin(1, DestroyProgram(sems)))
    ensures var one := Next(NO_THREADS, Begin(1, DestroyProgram(sems)));
      && Enabled(one, Begin(2, LogAll(sems)))
      && Reaches(Next(one, Begin(2, LogAll(sems))), run, end)
    ensures Deadlocked(end) && !Enabled(end, Run(1)) && !Enabled(end, Run(2))
  {
    var g := Next(Next(NO_THREADS, Begin(1, DestroyProgram(sems))), Begin(2, LogAll(sems)));
    assert GatesOpen(g, ScriptOf(LogAll(sems))) by {
      SectionGates(LogAll(sems));
    }
    var todo := [LogAll(sems)];
    assert Sections(todo) == ScriptOf(LogAll(sems));
    assert Entered(g, todo, sems);
    SectionsClash(todo, sems);
    assert Meets(todo[0], sems);
    run, end := ClashDeadlocks(g, todo, sems);
  }

  // ---- join_threads beside one short-term scheduler ----

  /** Thread 1 has entered `join_threads` with thread 2 still to be joined and all others ended; thread 2 runs `todo`
      before it ends. */
  ghost predicate Joining(g: Locks, todo: seq<Section>, listener: int, admission: int, schedulers: seq<int>) {
    && g.left == map[1 := ScriptOf(JoinThreads(listener, admission, schedulers)), 2 := Sections(todo)]
    && g.owner == map[]
    && listener in g.ended && admission in g.ended && 2 !in g.ended
    && 2 in schedulers && forall t :: t in schedulers && t != 2 ==> t in g.ended
  }

  /** Thread 1 waits for thread 2 to end, and thread 2 is inside a section and cannot go on. */
  ghost predicate JoinDeadlocked(g: Locks) {
    && 1 in g.left && g.left[1] != [] && g.left[1][0] == JoinThread(2) && 2 !in g.ended
    && 2 in g.left && g.left[2] != [] && !Enabled(g, Run(2))
  }

  /** What thread 2 cannot pass once the other threads have ended and thread 1 has the clients. */
  predicate Stops(x: Instr, open: set<int>) {
    x == Acquire(Clientes) || (x.PassMain? && x.program !in open)
  }

  lemma {:induction false} FirstStop(script: Script, open: set<int>) returns (k: nat)
    requires exists x :: x in script && Stops(x, open)
    ensures k < |script| && Stops(script[k], open) && forall i :: 0 <= i < k ==> !Stops(script[i], open)
  {
    if Stops(script[0], open) {
      k := 0;
    } else {
      var rest := FirstStop(script[1..], open);
      k := rest + 1;
    }
  }

  // The gates a section passes or opens.

  ghost predicate NoGates(script: Script) {
    forall x :: x in script ==> !x.PassMain? && !x.OpenMain?
  }

  lemma {:induction false} SemsNoGates(some: seq<int>)
    ensures NoGates(SemsScript(some))
  {
    if some != [] {
      SemsNoGates(some[1..]);
    }
  }

  lemma NoGatesBoth(a: Script, b: Script)
    requires NoGates(a) && NoGates(b)
    ensures NoGates(a + b)
  {}

  lemma NoGatesWithin(l: Lock, inner: Script)
    requires NoGates(inner)
    ensures NoGates(Within(l, inner))
  {}

  lemma LookupNoGates()
    ensures NoGates(GetProgramScript()) && NoGates(Within(Clientes, []))
  {}

  lemma MoveNoGates(m: Moving)
    ensures NoGates(MoveScript(m))
  {
    hide NoGates, Within, GetProgramScript;
    LookupNoGates();
    NoneNoGates();
    if m.Moves? {
      var removing := if m.removes then GetProgramScript() else [];
      var adding := if m.adds then GetProgramScript() else [];
      NoGatesBoth(Within(Clientes, []), removing);
      NoGatesBoth(Within(Clientes, []) + removing, adding);
      NoGatesWithin(StateList, Within(Clientes, []) + removing + adding);
    } else {
      NoGatesWithin(StateList, []);
    }
  }

  lemma NoneNoGates()
    ensures NoGates([])
  {}

  lemma {:induction false} MovesNoGates(moves: seq<Moving>)
    ensures NoGates(MovesScript(moves))
  {
    hide MoveScript;
    if moves != [] {
      MoveNoGates(moves[0]);
      MovesNoGates(moves[1..]);
    }
  }

  /** Outside shutdown only the loading of a main thread waits at a gate, and only the admission of one opens it. */
  lemma SectionGates(s: Section)
    requires !Shutdown(s)
    ensures s.LoadMain? ==> ScriptOf(s) != [] && ScriptOf(s)[0] == PassMain(s.program) && NoGates(ScriptOf(s)[1..])
    ensures s.MainExecSignal? ==>
      ScriptOf(s) != [] && ScriptOf(s)[0] == Acquire(Clientes) && forall p :: PassMain(p) !in ScriptOf(s)
    ensures !s.LoadMain? && !s.MainExecSignal? ==> NoGates(ScriptOf(s))
  {
    if s.LoadMain? {
      MoveNoGates(s.m);
      assert ScriptOf(s)[1..] == MoveScript(s.m);
    } else if s.MainExecSignal? {
      LookupNoGates();
      assert GetProgramScript()[0] == Acquire(Clientes);
    } else {
      PlainNoGates(s);
    }
  }

  lemma PlainNoGates(s: Section)
    requires !Shutdown(s) && !s.LoadMain? && !s.MainExecSignal?
    ensures NoGates(ScriptOf(s))
  {
    hide NoGates, Within, GetProgramScript, MoveScript, MovesScript, SemsScript;
    LookupNoGates();
    NoneNoGates();
    match s
    case GetProgram =>
    case Look => NoGatesWithin(StateList, []);
    case CreateTcb => NoGatesWithin(StateList, Within(Clientes, []));
    case MoveTcb(m) => MoveNoGates(m);
    case Wait(sem, blocks, m) =>
      MoveNoGates(m);
      NoGatesWithin(SemMutex(sem), if blocks then MoveScript(m) else []);
    case Signal(sem, wakes, p) =>
      NoGatesWithin(WakeupMutex(p), []);
      NoGatesBoth(GetProgramScript(), Within(WakeupMutex(p), []));
      NoGatesWithin(SemMutex(sem), if wakes then GetProgramScript() + Within(WakeupMutex(p), []) else []);
    case WakeupThreads(p, moves) =>
      MovesNoGates(moves);
      NoGatesWithin(WakeupMutex(p), MovesScript(moves));
    case LogThread =>
      NoGatesWithin(StateList, GetProgramScript());
      NoGatesWithin(Metrics, Within(StateList, GetProgramScript()));
    case LogAll(sems) =>
      SemsNoGates(sems);
      NoGatesWithin(StateList, Within(Clientes, []));
      NoGatesBoth(Within(StateList, Within(Clientes, [])), SemsScript(sems));
      NoGatesWithin(Metrics, Within(StateList, Within(Clientes, [])) + SemsScript(sems));
  }

  lemma PassesIff(s: Section, p: int)
    requires !Shutdown(s)
    ensures PassMain(p) in ScriptOf(s) <==> s == LoadMain(p, if s.LoadMain? then s.m else Stays)
  {
    hide ScriptOf;
    SectionGates(s);
    if s.LoadMain? {
      assert ScriptOf(s) == [ScriptOf(s)[0]] + ScriptOf(s)[1..];
    }
  }

  /** Nothing is opened before the clients are taken. */
  predicate OpensLate(script: Script) {
    script == [] || script[0] == Acquire(Clientes) || (!script[0].OpenMain? && OpensLate(script[1..]))
  }

  lemma {:induction false} OpensLateOn(a: Script, b: Script)
    requires OpensLate(b) && (OpensLate(a) || forall x :: x in a ==> !x.OpenMain?)
    ensures OpensLate(a + b)
  {
    if a == [] {
      assert a + b == b;
    } else {
      assert (a + b)[0] == a[0] && (a + b)[1..] == a[1..] + b;
      if a[0] != Acquire(Clientes) {
        OpensLateOn(a[1..], b);
      }
    }
  }

  lemma {:induction false} SectionsOpenLate(todo: seq<Section>)
    requires Steady(todo)
    ensures OpensLate(Sections(todo))
  {
    hide ScriptOf;
    if todo != [] {
      SectionGates(todo[0]);
      SectionsOpenLate(todo[1..]);
      OpensLateOn(ScriptOf(todo[0]), Sections(todo[1..]));
    }
  }

  lemma {:induction false} NoneOpensBefore(script: Script, k: nat)
    requires OpensLate(script) && k <= |script| && Acquire(Clientes) !in script[..k]
    ensures NoneOpens(script[..k])
  {
    if k > 0 {
      assert script[..k][0] == script[0] && script[..k][1..] == script[1..][..k - 1];
      assert forall x :: x in script[1..][..k - 1] ==> x in script[..k];
      NoneOpensBefore(script[1..], k - 1);
      assert script[..k] == [script[0]] + script[1..][..k - 1];
    }
  }

  lemma {:induction false} RunJoins(g: Locks, some: seq<int>, rest: Script) returns (run: seq<int>, end: Locks)
    requires 1 in g.left && g.left[1] == JoinsScript(some) + rest
    requires 2 in some && 2 !in g.ended && forall t :: t in some && t != 2 ==> t in g.ended
    ensures Reaches(g, run, end) && end.owner == g.owner && end.ended == g.ended && end.open == g.open
    ensures 1 in end.left && end.left[1] != [] && end.left[1][0] == JoinThread(2)
    ensures end.left.Keys == g.left.Keys && forall t :: t in g.left && t != 1 ==> end.left[t] == g.left[t]
    decreases |some|
  {
    var tail := JoinsScript(some[1..]) + rest;
    assert g.left[1] == [JoinThread(some[0])] + tail;
    if some[0] == 2 {
      run, end := [], g;
    } else {
      assert some[0] in some;
      var next := Next(g, Run(1));
      assert next.left[1] == tail;
      run, end := RunJoins(next, some[1..], rest);
      ReachesOne(g, 1);
      ReachesOn(g, [1], next, run, end);
      run := [1] + run;
    }
  }

  /** Thread 2 alone comes to the first thing it cannot pass, and thread 1 then waits for it with the clients. */
  lemma JoinRunsInto(g: Locks, todo: seq<Section>, listener: int, admission: int, schedulers: seq<int>)
    returns (run: seq<int>, end: Locks)
    requires Steady(todo) && Joining(g, todo, listener, admission, schedulers)
    requires exists x :: x in Sections(todo) && Stops(x, g.open)
    ensures Reaches(g, run, end) && JoinDeadlocked(end)
  {
    hide HeldAfter, JoinsScript, Reaches, Ordered, Sections, OpensLate, NoneOpens;
    var script := Sections(todo);
    SectionsKeepOrder(todo);
    SectionsOpenLate(todo);
    assert Held(g, 2) == {};
    var k := FirstStop(script, g.open);
    assert forall x :: x in script[..k] ==> !Stops(x, g.open);
    NoneOpensBefore(script, k);
    var first, at := RunAlone(g, 2, k);
    StoppedHeld(at.left[2], Held(at, 2));
    assert forall l :: l in at.owner ==> l in Held(at, 2);
    var three := JoinBegins(at, listener, admission, schedulers);
    var more, last := RunJoins(three, schedulers, [Release(Clientes)]);
    ReachesOn(at, [1, 1, 1], three, more, last);
    ReachesOn(g, first, at, [1, 1, 1] + more, last);
    run, end := first + ([1, 1, 1] + more), last;
  }

  /** Where thread 2 is stopped it does not have the clients. */
  lemma StoppedHeld(script: Script, held: set<Lock>)
    requires Ordered(script, held) && script != [] && (script[0] == Acquire(Clientes) || script[0].PassMain?)
    ensures Clientes !in held
  {}

  lemma JoinBegins(g: Locks, listener: int, admission: int, schedulers: seq<int>) returns (end: Locks)
    requires 1 in g.left && g.left[1] == ScriptOf(JoinThreads(listener, admission, schedulers))
    requires listener in g.ended && admission in g.ended && Clientes !in g.owner
    ensures Reaches(g, [1, 1, 1], end) && end.owner == g.owner[Clientes := 1] && end.ended == g.ended
    ensures end.open == g.open
    ensures end.left == g.left[1 := JoinsScript(schedulers) + [Release(Clientes)]]
  {
    hide JoinsScript, Reaches;
    var joins := JoinsScript(schedulers) + [Release(Clientes)];
    assert g.left[1] == [JoinThread(listener), JoinThread(admission), Acquire(Clientes)] + joins;
    var one := Next(g, Run(1));
    assert one.left[1] == [JoinThread(admission), Acquire(Clientes)] + joins;
    var two := Next(one, Run(1));
    assert two.left[1] == [Acquire(Clientes)] + joins;
    end := Next(two, Run(1));
    assert end.left[1] == joins;
    ReachesOne(g, 1);
    ReachesOne(one, 1);
    ReachesOne(two, 1);
    ReachesOn(one, [1], two, [1], end);
    ReachesOn(g, [1], one, [1] + [1], end);
    assert [1] + ([1] + [1]) == [1, 1, 1];
  }

  /** What `join_threads` still does: it takes the clients once, releases what it holds and waits for threads. */
  ghost predicate OnlyJoins(script: Script, held: set<Lock>) {
    script == [] ||
    match script[0]
    case Acquire(l) => l == Clientes && OnlyJoins(script[1..], held + {l})
    case Release(l) => l in held && OnlyJoins(script[1..], held - {l})
    case JoinThread(_) => OnlyJoins(script[1..], held)
    case _ => false
  }

  /** What every state reached from there keeps. */
  ghost predicate JoinPairOk(g: Locks, script: Script, open: set<int>) {
    && g.left.Keys == {1, 2} && (forall l :: l in g.owner ==> g.owner[l] in {1, 2})
    && (forall l :: l in Held(g, 1) ==> l == Clientes) && OnlyJoins(g.left[1], Held(g, 1))
    && Ordered(g.left[2], Held(g, 2)) && (forall x :: x in g.left[2] ==> x in script)
    && open <= g.open
  }

  lemma JoinPairKept(g: Locks, t: int, script: Script, open: set<int>)
    requires JoinPairOk(g, script, open) && Enabled(g, Run(t))
    ensures JoinPairOk(Next(g, Run(t)), script, open)
  {
    var next := Next(g, Run(t));
    assert t in g.left.Keys;
    var u := 3 - t;
    assert Held(next, u) == Held(g, u);
    assert Held(next, t) == match g.left[t][0] case Acquire(l) => Held(g, t) + {l} case Release(l) => Held(g, t) - {l}
                                               case _ => Held(g, t);
    assert g.left[t][0] in g.left[t] && forall x :: x in g.left[t][1..] ==> x in g.left[t];
  }

  lemma {:induction false} JoinPairReaches(g: Locks, run: seq<int>, end: Locks, script: Script, open: set<int>)
    requires JoinPairOk(g, script, open) && Reaches(g, run, end)
    ensures JoinPairOk(end, script, open)
    decreases |run|
  {
    if run != [] {
      JoinPairKept(g, run[0], script, open);
      JoinPairReaches(Next(g, Run(run[0])), run[1..], end, script, open);
    }
  }

  lemma {:induction false} JoinsOnlyJoin(some: seq<int>)
    ensures OnlyJoins(JoinsScript(some) + [Release(Clientes)], {Clientes})
  {
    var script := JoinsScript(some) + [Release(Clientes)];
    if some == [] {
      assert script == [Release(Clientes)] && script[1..] == [];
    } else {
      JoinsOnlyJoin(some[1..]);
      assert script[0] == JoinThread(some[0]) && script[1..] == JoinsScript(some[1..]) + [Release(Clientes)];
    }
  }

  lemma JoinOnlyJoins(listener: int, admission: int, schedulers: seq<int>)
    ensures OnlyJoins(ScriptOf(JoinThreads(listener, admission, schedulers)), {})
  {
    JoinsOnlyJoin(schedulers);
    hide JoinsScript;
    var joins := JoinsScript(schedulers) + [Release(Clientes)];
    var third := [Acquire(Clientes)] + joins;
    var second := [JoinThread(admission)] + third;
    assert third[1..] == joins && second[1..] == third;
    assert {} + {Clientes} == {Clientes};
    assert OnlyJoins(third, {});
    assert OnlyJoins(second, {});
    var first := [JoinThread(listener)] + second;
    assert first[1..] == second && OnlyJoins(first, {});
    assert ScriptOf(JoinThreads(listener, admission, schedulers)) == first;
  }

  lemma JoiningOk(g: Locks, todo: seq<Section>, listener: int, admission: int, schedulers: seq<int>)
    requires Steady(todo) && Joining(g, todo, listener, admission, schedulers)
    ensures JoinPairOk(g, Sections(todo), g.open)
  {
    hide Sections, ScriptOf, OnlyJoins, Ordered;
    SectionsKeepOrder(todo);
    JoinOnlyJoins(listener, admission, schedulers);
    assert Held(g, 1) == {} && Held(g, 2) == {};
  }

  /** In a deadlock thread 2 waits for the clients, which thread 1 has, or at a gate that nobody is left to open. */
  lemma JoinDeadlockStops(g: Locks, script: Script, open: set<int>)
    requires JoinPairOk(g, script, open) && JoinDeadlocked(g)
    ensures Stops(g.left[2][0], open) && g.left[2][0] in script
    ensures g.left[2][0] == Acquire(Clientes) ==> WaitsFor(g, 2, 1)
  {
    var x := g.left[2][0];
    assert x in g.left[2];
    if x.Acquire? {
      assert x.l in Held(g, g.owner[x.l]);
    }
  }

  /** `join_threads` holds the clients while it waits for the short-term schedulers to end: it deadlocks with one of
      them exactly when one of the sections that thread still runs takes the clients, or loads a main thread that has
      not been admitted. */
  lemma JoinDeadlockIff(g: Locks, todo: seq<Section>, listener: int, admission: int, schedulers: seq<int>)
    requires Steady(todo) && Joining(g, todo, listener, admission, schedulers)
    ensures (exists run, end :: Reaches(g, run, end) && JoinDeadlocked(end))
      <==> exists i :: 0 <= i < |todo| &&
             (Acquire(Clientes) in ScriptOf(todo[i]) || (todo[i].LoadMain? && todo[i].program !in g.open))
  {
    hide ScriptOf, Sections, JoinDeadlocked;
    StopsIff(todo, g.open);
    if x :| x in Sections(todo) && Stops(x, g.open) {
      var run, end := JoinRunsInto(g, todo, listener, admission, schedulers);
    } else if exists run, end :: Reaches(g, run, end) && JoinDeadlocked(end) {
      var run, end :| Reaches(g, run, end) && JoinDeadlocked(end);
      JoiningOk(g, todo, listener, admission, schedulers);
      JoinPairReaches(g, run, end, Sections(todo), g.open);
      JoinDeadlockStops(end, Sections(todo), g.open);
    }
  }

  /** A stop is ahead exactly when one of the sections has one. */
  lemma StopsIff(todo: seq<Section>, open: set<int>)
    requires Steady(todo)
    ensures (exists x :: x in Sections(todo) && Stops(x, open))
      <==> exists i :: 0 <= i < |todo| &&
             (Acquire(Clientes) in ScriptOf(todo[i]) || (todo[i].LoadMain? && todo[i].program !in open))
  {
    hide ScriptOf, Sections;
    if x :| x in Sections(todo) && Stops(x, open) {
      InSections(todo, x);
      var i :| 0 <= i < |todo| && x in ScriptOf(todo[i]);
      if x.PassMain? {
        PassesIff(todo[i], x.program);
      }
    }
    if i :| 0 <= i < |todo|
            && (Acquire(Clientes) in ScriptOf(todo[i]) || (todo[i].LoadMain? && todo[i].program !in open)) {
      var x := if Acquire(Clientes) in ScriptOf(todo[i]) then Acquire(Clientes) else PassMain(todo[i].program);
      if x.PassMain? {
        PassesIff(todo[i], x.program);
      }
      InSections(todo, x);
      assert x in Sections(todo) && Stops(x, open);
    }
  }

  // ---- the sections of a client operation ----

  /** What the short-term scheduler does with one request, as far as its branches decide which sections it runs: each
      `rounds` entry is a look that found nothing and the `wakeup_threads` after it. */
  datatype Operation =
    | Create(main: bool, m: Moving)
    | ScheduleNext(rounds: seq<seq<Moving>>, switch: seq<Moving>)
    | WaitOn(accepted: bool, sem: int, blocks: bool, m: Moving)
    | SignalOn(accepted: bool, sem: int, wakes: bool, other: int)
    | JoinTo(rounds: seq<seq<Moving>>, joins: bool, m: Moving)
    | Close(accepted: bool, joiners: seq<Moving>, m: Moving)

  function Rounds(p: int, rounds: seq<seq<Moving>>): seq<Section> {
    if rounds == [] then [] else [Look, WakeupThreads(p, rounds[0])] + Rounds(p, rounds[1..])
  }

  function Moves(moves: seq<Moving>): seq<Section> {
    if moves == [] then [] else [MoveTcb(moves[0])] + Moves(moves[1..])
  }

  function Branch(b: bool, sections: seq<Section>): seq<Section> {
    if b then sections else []
  }

  function OperationSections(p: int, op: Operation): seq<Section> {
    match op
    case Create(main, m) => [CreateTcb] + Branch(main, [LoadMain(p, m)])
    case ScheduleNext(rounds, switch) => Rounds(p, rounds) + [Look] + Moves(switch)
    case WaitOn(accepted, sem, blocks, m) => Branch(accepted, [SuseLocks.Wait(sem, blocks, m)])
    case SignalOn(accepted, sem, wakes, other) => Branch(accepted, [SuseLocks.Signal(sem, wakes, other)])
    case JoinTo(rounds, joins, m) => Rounds(p, rounds) + [Look] + Branch(joins, [MoveTcb(m)])
    case Close(accepted, joiners, m) => Branch(accepted, Moves(joiners) + [MoveTcb(m), LogThread])
  }

  /** One turn of the loop of `schedule_short_term`: the request, `wakeup_threads` and the look at `endsuse`. */
  function Turn(p: int, op: Operation, woken: seq<Moving>): seq<Section> {
    OperationSections(p, op) + [WakeupThreads(p, woken), Look]
  }

  predicate AnyMoves(moves: seq<Moving>) {
    exists i :: 0 <= i < |moves| && moves[i].Moves?
  }

  predicate AnyRoundMoves(rounds: seq<seq<Moving>>) {
    exists i :: 0 <= i < |rounds| && AnyMoves(rounds[i])
  }

  /** The sections that take the clients. */
  predicate TakesClients(s: Section) {
    match s
    case GetProgram => true
    case Look => false
    case CreateTcb => true
    case MoveTcb(m) => m.Moves?
    case Wait(_, blocks, m) => blocks && m.Moves?
    case Signal(_, wakes, _) => wakes
    case WakeupThreads(_, moves) => AnyMoves(moves)
    case LoadMain(_, m) => m.Moves?
    case MainExecSignal(_) => true
    case LogThread => true
    case LogAll(_) => true
    case JoinThreads(_, _, _) => true
    case DestroyProgram(_) => true
  }

  lemma MoveTakes(m: Moving)
    ensures Acquire(Clientes) in MoveScript(m) <==> m.Moves?
  {}

  lemma {:induction false} MovesTake(moves: seq<Moving>)
    ensures Acquire(Clientes) in MovesScript(moves) <==> AnyMoves(moves)
  {
    hide MoveScript;
    if moves != [] {
      MoveTakes(moves[0]);
      MovesTake(moves[1..]);
      assert forall i :: 0 < i < |moves| ==> moves[i] == moves[1..][i - 1];
      assert forall i :: 0 <= i < |moves| - 1 ==> moves[1..][i] == moves[i + 1];
    }
  }

  lemma TakesClientsIff(s: Section)
    ensures Acquire(Clientes) in ScriptOf(s) <==> TakesClients(s)
  {
    hide MoveScript, MovesScript, SemsScript, JoinsScript;
    match s
    case MoveTcb(m) => MoveTakes(m);
    case Wait(_, _, m) => MoveTakes(m);
    case WakeupThreads(_, moves) => MovesTake(moves);
    case LoadMain(_, m) => MoveTakes(m);
    case _ =>
  }

  predicate AnyTakes(todo: seq<Section>) {
    exists i :: 0 <= i < |todo| && TakesClients(todo[i])
  }

  lemma AnyTakesBoth(a: seq<Section>, b: seq<Section>)
    ensures AnyTakes(a + b) <==> AnyTakes(a) || AnyTakes(b)
  {
    hide TakesClients;
    assert forall i :: 0 <= i < |a| ==> (a + b)[i] == a[i];
    assert forall i :: 0 <= i < |b| ==> (a + b)[|a| + i] == b[i];
    if AnyTakes(a + b) {
      var i :| 0 <= i < |a + b| && TakesClients((a + b)[i]);
      if i >= |a| {
        assert b[i - |a|] == (a + b)[i];
      }
    }
  }

  lemma {:induction false} RoundsTake(p: int, rounds: seq<seq<Moving>>)
    ensures AnyTakes(Rounds(p, rounds)) <==> AnyRoundMoves(rounds)
  {
    hide AnyMoves;
    if rounds != [] {
      var first := [Look, WakeupThreads(p, rounds[0])];
      RoundsTake(p, rounds[1..]);
      AnyTakesBoth(first, Rounds(p, rounds[1..]));
      assert AnyTakes(first) <==> TakesClients(first[0]) || TakesClients(first[1]);
      assert forall i :: 0 < i < |rounds| ==> rounds[i] == rounds[1..][i - 1];
      assert forall i :: 0 <= i < |rounds| - 1 ==> rounds[1..][i] == rounds[i + 1];
    }
  }

  lemma {:induction false} MovesSectionsTake(moves: seq<Moving>)
    ensures AnyTakes(Moves(moves)) <==> AnyMoves(moves)
  {
    if moves != [] {
      var first := [MoveTcb(moves[0])];
      MovesSectionsTake(moves[1..]);
      AnyTakesBoth(first, Moves(moves[1..]));
      assert AnyTakes(first) <==> TakesClients(first[0]);
      assert forall i :: 0 < i < |moves| ==> moves[i] == moves[1..][i - 1];
      assert forall i :: 0 <= i < |moves| - 1 ==> moves[1..][i] == moves[i + 1];
    }
  }

  /** The requests in whose service the clients are taken: every create and every accepted close, a wait that blocks, a
      signal that wakes, and a schedule or a join that moves or wakes a thread. */
  predicate OperationTakes(op: Operation) {
    match op
    case Create(_, _) => true
    case ScheduleNext(rounds, switch) => AnyRoundMoves(rounds) || AnyMoves(switch)
    case WaitOn(accepted, _, blocks, m) => accepted && blocks && m.Moves?
    case SignalOn(accepted, _, wakes, _) => accepted && wakes
    case JoinTo(rounds, joins, m) => AnyRoundMoves(rounds) || (joins && m.Moves?)
    case Close(accepted, _, _) => accepted
  }

  lemma OneTakes(s: Section)
    ensures AnyTakes([s]) <==> TakesClients(s)
  {
    assert [s][0] == s;
  }

  lemma NoneTakes()
    ensures !AnyTakes([])
  {}

  lemma OperationTakesIff(p: int, op: Operation)
    ensures AnyTakes(OperationSections(p, op)) <==> OperationTakes(op)
  {
    hide AnyTakes, AnyMoves, AnyRoundMoves;
    NoneTakes();
    OneTakes(Look);
    match op
    case Create(main, m) =>
      OneTakes(CreateTcb);
      AnyTakesBoth([CreateTcb], Branch(main, [LoadMain(p, m)]));
    case ScheduleNext(rounds, switch) =>
      RoundsTake(p, rounds);
      MovesSectionsTake(switch);
      AnyTakesBoth(Rounds(p, rounds), [Look]);
      AnyTakesBoth(Rounds(p, rounds) + [Look], Moves(switch));
    case WaitOn(_, sem, blocks, m) => OneTakes(SuseLocks.Wait(sem, blocks, m));
    case SignalOn(_, sem, wakes, other) => OneTakes(SuseLocks.Signal(sem, wakes, other));
    case JoinTo(rounds, joins, m) =>
      RoundsTake(p, rounds);
      OneTakes(MoveTcb(m));
      AnyTakesBoth(Rounds(p, rounds), [Look]);
      AnyTakesBoth(Rounds(p, rounds) + [Look], Branch(joins, [MoveTcb(m)]));
    case Close(accepted, joiners, m) =>
      OneTakes(LogThread);
      AnyTakesBoth([MoveTcb(m)], [LogThread]);
      assert [MoveTcb(m)] + [LogThread] == [MoveTcb(m), LogThread];
      AnyTakesBoth(Moves(joiners), [MoveTcb(m), LogThread]);
  }

  lemma TurnTakesIff(p: int, op: Operation, woken: seq<Moving>)
    ensures AnyTakes(Turn(p, op, woken)) <==> OperationTakes(op) || AnyMoves(woken)
  {
    hide AnyTakes, AnyMoves, OperationTakes;
    OperationTakesIff(p, op);
    OneTakes(WakeupThreads(p, woken));
    OneTakes(Look);
    AnyTakesBoth([WakeupThreads(p, woken)], [Look]);
    assert [WakeupThreads(p, woken)] + [Look] == [WakeupThreads(p, woken), Look];
    AnyTakesBoth(OperationSections(p, op), [WakeupThreads(p, woken), Look]);
  }

  /** Neither of shutdown nor waiting at a gate. */
  predicate Calm(todo: seq<Section>) {
    forall i :: 0 <= i < |todo| ==> !Shutdown(todo[i]) && !todo[i].LoadMain?
  }

  lemma CalmBoth(a: seq<Section>, b: seq<Section>)
    ensures Calm(a + b) <==> Calm(a) && Calm(b)
  {
    assert forall i :: 0 <= i < |a| ==> (a + b)[i] == a[i];
    assert forall i :: 0 <= i < |b| ==> (a + b)[|a| + i] == b[i];
  }

  lemma {:induction false} RoundsCalm(p: int, rounds: seq<seq<Moving>>)
    ensures Calm(Rounds(p, rounds))
  {
    if rounds != [] {
      RoundsCalm(p, rounds[1..]);
    }
  }

  lemma {:induction false} MovesCalm(moves: seq<Moving>)
    ensures Calm(Moves(moves))
  {
    if moves != [] {
      MovesCalm(moves[1..]);
    }
  }

  lemma OneCalm(s: Section)
    ensures Calm([s]) <==> !Shutdown(s) && !s.LoadMain?
  {
    assert [s][0] == s;
  }

  lemma NoneCalm()
    ensures Calm([])
  {}

  /** Only a create waits at a gate. */
  lemma OperationCalm(p: int, op: Operation)
    requires !op.Create?
    ensures Calm(OperationSections(p, op))
  {
    hide Calm, Rounds, Moves;
    NoneCalm();
    OneCalm(Look);
    match op
    case ScheduleNext(rounds, switch) =>
      RoundsCalm(p, rounds);
      MovesCalm(switch);
      CalmBoth(Rounds(p, rounds), [Look]);
      CalmBoth(Rounds(p, rounds) + [Look], Moves(switch));
    case WaitOn(_, sem, blocks, m) => OneCalm(SuseLocks.Wait(sem, blocks, m));
    case SignalOn(_, sem, wakes, other) => OneCalm(SuseLocks.Signal(sem, wakes, other));
    case JoinTo(rounds, joins, m) =>
      RoundsCalm(p, rounds);
      OneCalm(MoveTcb(m));
      CalmBoth(Rounds(p, rounds), [Look]);
      CalmBoth(Rounds(p, rounds) + [Look], Branch(joins, [MoveTcb(m)]));
    case Close(_, joiners, m) =>
      MovesCalm(joiners);
      OneCalm(MoveTcb(m));
      OneCalm(LogThread);
      CalmBoth([MoveTcb(m)], [LogThread]);
      assert [MoveTcb(m)] + [LogThread] == [MoveTcb(m), LogThread];
      CalmBoth(Moves(joiners), [MoveTcb(m), LogThread]);
  }

  lemma TurnHasNoShutdown(p: int, op: Operation, woken: seq<Moving>)
    ensures Steady(Turn(p, op, woken)) && (!op.Create? ==> Calm(Turn(p, op, woken)))
  {
    if !op.Create? {
      hide OperationSections;
      OperationCalm(p, op);
      CalmBoth(OperationSections(p, op), [WakeupThreads(p, woken), Look]);
    }
  }

  /** So `join_threads` deadlocks with a scheduler serving its last request exactly when the service takes the clients
      or the `wakeup_threads` after it moves a thread; a create takes them even before it waits at its gate. */
  lemma JoinDuringRequestIff(g: Locks, p: int, op: Operation, woken: seq<Moving>,
      listener: int, admission: int, schedulers: seq<int>)
    requires Joining(g, Turn(p, op, woken), listener, admission, schedulers)
    ensures (exists run, end :: Reaches(g, run, end) && JoinDeadlocked(end)) <==> OperationTakes(op) || AnyMoves(woken)
  {
    hide ScriptOf, Turn, TakesClients, OperationTakes, AnyMoves, Joining, JoinDeadlocked, Reaches;
    var todo := Turn(p, op, woken);
    TurnHasNoShutdown(p, op, woken);
    JoinDeadlockIff(g, todo, listener, admission, schedulers);
    forall i | 0 <= i < |todo| ensures Acquire(Clientes) in ScriptOf(todo[i]) <==> TakesClients(todo[i]) {
      TakesClientsIff(todo[i]);
    }
    TurnTakesIff(p, op, woken);
    if op.Create? {
      CreateTakes(op);
    }
  }

  lemma CreateTakes(op: Operation)
    requires op.Create?
    ensures OperationTakes(op)
  {}
}
