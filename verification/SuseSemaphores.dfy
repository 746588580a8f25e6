// Semaphore correctness over whole runs, and mutual exclusion built on it.
module SuseSemaphores {
  import opened Lists
  import opened SuseState
  import opened SuseInvariant
  import opened SuseSystem
  import opened SuseSafety
  import opened SusePlacement
  import opened SuseRuns

  /** The step is a `suse_wait` on `n` by the running thread. */
  predicate IsWait(s: Sys, a: Action, n: string) {
    a.step.Waits? && a.step.name == n && Running(s.st, a.step.p) && Exec(s.st, a.step.p).tid == a.step.tid
  }

  predicate IsSignal(s: Sys, a: Action, n: string) {
    a.step.Signals? && a.step.name == n && Running(s.st, a.step.p) && Exec(s.st, a.step.p).tid == a.step.tid
  }

  /** The thread that goes to sleep on `n` in this step. */
  function Blocks(s: Sys, a: Action, n: string): seq<Id> {
    if IsWait(s, a, n) && n in s.st.sems && s.st.sems[n].value <= 0 then [Exec(s.st, a.step.p)] else []
  }

  /** The thread that `n` hands a wakeup to in this step: the one asleep longest, if any is. */
  function Wakes(s: Sys, a: Action, n: string): seq<Id> {
    if IsSignal(s, a, n) && n in s.st.sems && s.st.sems[n].blocked != [] then [s.st.sems[n].blocked[0]] else []
  }

  /** What has happened on one semaphore so far; a signal is lost when it finds the value at the maximum. */
  datatype History = History(waits: nat, signals: nat, lost: nat, slept: seq<Id>, woken: seq<Id>, inside: set<Id>)

  /** `inside`: the threads whose wait has completed and that have not signalled since. */
  ghost function Extend(h: History, s: Sys, a: Action, n: string): History {
    if IsWait(s, a, n) then
      h.(waits := h.waits + 1, slept := h.slept + Blocks(s, a, n),
         inside := if Blocks(s, a, n) == [] then h.inside + {Exec(s.st, a.step.p)} else h.inside)
    else if IsSignal(s, a, n) then
      h.(signals := h.signals + 1,
         lost := if n in s.st.sems && s.st.sems[n].value >= s.st.sems[n].max then h.lost + 1 else h.lost,
         woken := h.woken + Wakes(s, a, n),
         inside := h.inside - {Exec(s.st, a.step.p)} + set t | t in Wakes(s, a, n))
    else h
  }

  ghost function Observed(s: Sys, run: seq<Action>, n: string): History
    requires CanRun(s, run)
  {
    if run == [] then History(0, 0, 0, [], [], {})
    else var k := |run| - 1; Extend(Observed(s, run[..k], n), After(s, run[..k]), run[k], n)
  }

  /** Waits that returned: those that did not sleep, and those that were woken. */
  ghost function Completed(h: History): int {
    h.waits - |h.slept| + |h.woken|
  }

  ghost predicate Balanced(h: History, sem: Sem, init: int) {
    && sem.value == init - h.waits + h.signals - h.lost
    && h.slept == h.woken + sem.blocked
  }

  lemma SemOfStep(s: Sys, a: Action, n: string)
    requires Safe(s, a) && n in s.st.sems
    ensures n in Apply(s, a).st.sems && Apply(s, a).st.sems[n] == Prepared(s, a).sems[n]
  {
    NormalForm(s, a);
    match Moved(s, a)
    case None =>
    case Some(Target(t, to)) => MoveFrame(Prepared(s, a), t, to, a.now);
  }

  /** What a step does to one semaphore. */
  lemma SemAfter(s: Sys, a: Action, n: string)
    requires SemsOk(s.st) && Safe(s, a) && n in s.st.sems
    ensures var sem := s.st.sems[n];
      && n in Apply(s, a).st.sems
      && Apply(s, a).st.sems[n] ==
           if IsWait(s, a, n) then sem.(value := sem.value - 1, blocked := sem.blocked + Blocks(s, a, n))
           else if IsSignal(s, a, n) then
             sem.(value := if sem.value < sem.max then sem.value + 1 else sem.value,
                  blocked := sem.blocked[|Wakes(s, a, n)|..])
           else sem
  {
    SemOfStep(s, a, n);
    SleeperBelowZero(s.st, n);
    hide Apply, MoveSafe, Choose, ChosenPos, SemsOk;
  }

  lemma SleeperBelowZero(st: State, n: string)
    requires SemsOk(st) && n in st.sems
    ensures st.sems[n].blocked != [] <==> st.sems[n].value < 0
    ensures st.sems[n].value <= st.sems[n].max && st.sems[n].max >= 1
  {}

  /** A signal by the running thread wakes somebody exactly when somebody is asleep. */
  lemma WakesIffAsleep(s: Sys, p: int, tid: int, name: string)
    requires SemsOk(s.st) && Running(s.st, p) && Exec(s.st, p).tid == tid && name in s.st.sems
    ensures SignalWakes(s.st, p, tid, name) <==> s.st.sems[name].blocked != []
  {
    SleeperBelowZero(s.st, name);
  }

  lemma StepBalance(h: History, s: Sys, a: Action, n: string, init: int)
    requires SemsOk(s.st) && Safe(s, a) && n in s.st.sems && Balanced(h, s.st.sems[n], init)
    ensures n in Apply(s, a).st.sems && Balanced(Extend(h, s, a, n), Apply(s, a).st.sems[n], init)
    ensures Apply(s, a).st.sems[n].max == s.st.sems[n].max
  {
    SemAfter(s, a, n);
    hide Safe, Apply, SemsOk, IsWait, IsSignal;
    var sem := s.st.sems[n];
    if IsSignal(s, a, n) && sem.blocked != [] {
      assert sem.blocked == [sem.blocked[0]] + sem.blocked[1..];
      assert (h.woken + [sem.blocked[0]]) + sem.blocked[1..] == h.woken + sem.blocked;
    }
    if IsWait(s, a, n) {
      assert (h.woken + sem.blocked) + [Exec(s.st, a.step.p)] == h.woken + (sem.blocked + [Exec(s.st, a.step.p)]);
    }
  }

  /** The value counts waits and signals, and threads are woken in the exact order they went to sleep. */
  lemma {:induction false} SemaphoreBalance(s: Sys, run: seq<Action>, n: string)
    requires Inv(s) && CanRun(s, run) && n in s.st.sems && s.st.sems[n].blocked == []
    ensures n in After(s, run).st.sems
    ensures Balanced(Observed(s, run, n), After(s, run).st.sems[n], s.st.sems[n].value)
    ensures After(s, run).st.sems[n].max == s.st.sems[n].max
  {
    if run != [] {
      var k := |run| - 1;
      SemaphoreBalance(s, run[..k], n);
      RunInv(s, run[..k]);
      StepBalance(Observed(s, run[..k], n), After(s, run[..k]), run[k], n, s.st.sems[n].value);
    }
  }

  /** In every run no more waits return than the initial value and the signals allow, and nobody sleeps beside a
      positive value. */
  lemma CompletedWaitsBounded(s: Sys, run: seq<Action>, n: string)
    requires Inv(s) && CanRun(s, run) && n in s.st.sems && s.st.sems[n].blocked == []
    ensures n in After(s, run).st.sems
    ensures var h := Observed(s, run, n); var sem := After(s, run).st.sems[n];
      && Completed(h) <= s.st.sems[n].value + h.signals
      && Completed(h) == s.st.sems[n].value + h.signals - h.lost - (if sem.value > 0 then sem.value else 0)
      && sem.value <= sem.max && |sem.blocked| == Waiting(sem.value)
      && h.woken <= h.slept
  {
    SemaphoreBalance(s, run, n);
    RunInv(s, run);
  }

  // ---- mutual exclusion ----

  /** The clients use `n` as a lock: wait when outside, signal when inside. */
  ghost predicate Paired(s: Sys, run: seq<Action>, n: string)
    requires CanRun(s, run)
  {
    run == [] ||
    var k := |run| - 1;
    var before := After(s, run[..k]);
    && Paired(s, run[..k], n)
    && (IsWait(before, run[k], n) ==> Exec(before.st, run[k].step.p) !in Observed(s, run[..k], n).inside)
    && (IsSignal(before, run[k], n) ==> Exec(before.st, run[k].step.p) in Observed(s, run[..k], n).inside)
  }

  ghost predicate InsideOk(h: History, s: Sys, n: string) {
    && n in s.st.sems
    && |h.inside| == Completed(h) - h.signals
    && forall t :: t in s.st.sems[n].blocked ==> t !in h.inside
  }

  lemma SignalInside(h: History, s: Sys, a: Action, n: string)
    requires SemsOk(s.st) && Safe(s, a) && InsideOk(h, s, n) && IsSignal(s, a, n) && NoDup(s.st.sems[n].blocked)
    requires Exec(s.st, a.step.p) in h.inside
    ensures InsideOk(Extend(h, s, a, n), Apply(s, a), n)
  {
    SemAfter(s, a, n);
    hide Apply, Safe, SemsOk;
    var blocked := s.st.sems[n].blocked;
    var e := Exec(s.st, a.step.p);
    var out := h.inside - {e};
    if Wakes(s, a, n) != [] {
      var t := blocked[0];
      assert t in blocked;
      assert (set x | x in Wakes(s, a, n)) == {t};
      assert Extend(h, s, a, n).inside == out + {t};
      assert forall x :: x in blocked[1..] ==> x in blocked && x != t;
    } else {
      assert Extend(h, s, a, n).inside == out;
    }
  }

  lemma WaitInside(h: History, s: Sys, a: Action, n: string)
    requires Safe(s, a) && InsideOk(h, s, n) && IsWait(s, a, n)
    requires Exec(s.st, a.step.p) !in h.inside && Exec(s.st, a.step.p) !in s.st.sems[n].blocked
    ensures InsideOk(Extend(h, s, a, n), Apply(s, a), n)
  {
    SemOfStep(s, a, n);
  }

  lemma InsideStep(h: History, s: Sys, a: Action, n: string)
    requires OneWaker(s) && Placed(s.st) && SemsOk(s.st) && Safe(s, a) && InsideOk(h, s, n)
    requires IsWait(s, a, n) ==> Exec(s.st, a.step.p) !in h.inside
    requires IsSignal(s, a, n) ==> Exec(s.st, a.step.p) in h.inside
    ensures InsideOk(Extend(h, s, a, n), Apply(s, a), n)
  {
    assert Queue(s, OnSem(n)) == s.st.sems[n].blocked && NoDup(Queue(s, OnSem(n)));
    if IsSignal(s, a, n) {
      SignalInside(h, s, a, n);
    } else if IsWait(s, a, n) {
      ExecIs(s.st, a.step.p);
      assert !InQueue(s, Exec(s.st, a.step.p), OnSem(n));
      WaitInside(h, s, a, n);
    } else {
      SemOfStep(s, a, n);
    }
  }

  lemma {:induction false} InsideCounted(s: Sys, run: seq<Action>, n: string)
    requires Inv(s) && CanRun(s, run) && n in s.st.sems && s.st.sems[n].blocked == [] && Paired(s, run, n)
    ensures InsideOk(Observed(s, run, n), After(s, run), n)
  {
    if run != [] {
      var k := |run| - 1;
      InsideCounted(s, run[..k], n);
      RunInv(s, run[..k]);
      InsideStep(Observed(s, run[..k], n), After(s, run[..k]), run[k], n);
    }
  }

  /** With paired use, at most `init` threads, of all programs together, are inside; with init 1 it is a lock. */
  lemma MutualExclusion(s: Sys, run: seq<Action>, n: string)
    requires Inv(s) && CanRun(s, run) && n in s.st.sems && s.st.sems[n].blocked == [] && Paired(s, run, n)
    ensures |Observed(s, run, n).inside| <= s.st.sems[n].value
    ensures s.st.sems[n].value == 1 ==>
            forall t, u :: t in Observed(s, run, n).inside && u in Observed(s, run, n).inside ==> t == u
  {
    InsideCounted(s, run, n);
    CompletedWaitsBounded(s, run, n);
    if s.st.sems[n].value == 1 {
      AtMostOne(Observed(s, run, n).inside);
    }
  }

  lemma AtMostOne<T(!new)>(a: set<T>)
    requires |a| <= 1
    ensures forall t, u :: t in a && u in a ==> t == u
  {
    forall t, u | t in a && u in a ensures t == u {
      assert |a - {t}| == 0;
      assert u in a - {t} || u == t;
    }
  }

  // ---- from the configured start ----

  lemma StartSems(alpha: real, maxMultiprog: nat, config: map<string, SemConfig>, now: real)
    ensures var sems := Start(alpha, maxMultiprog, config, now).st.sems;
      sems.Keys == config.Keys && forall n :: n in config ==> sems[n] == Sem(config[n].init, config[n].max, [])
  {}

  lemma SemNamesKept(s: Sys, a: Action)
    requires Safe(s, a)
    ensures Apply(s, a).st.sems.Keys == s.st.sems.Keys
  {
    NormalForm(s, a);
    hide Safe, Apply, MoveSafe, Choose, ChosenPos;
    PreparedSemNames(s, a);
    match Moved(s, a)
    case None =>
    case Some(Target(t, to)) => MovesAway(s, a); MoveFrame(Prepared(s, a), t, to, a.now);
  }

  lemma PreparedSemNames(s: Sys, a: Action)
    requires Safe(s, a)
    ensures Prepared(s, a).sems.Keys == s.st.sems.Keys
  {
    hide MoveSafe, Choose, ChosenPos, Signal;
    match a.step
    case Signals(p, tid, name) => SignalSemNames(s.st, p, tid, name);
    case Schedules(p) => ChooseSems(s.st, p, a.now);
    case _ =>
  }

  lemma SignalSemNames(st: State, p: int, tid: int, name: string)
    requires Running(st, p) && name in st.sems && SignalDefined(st, p, tid, name)
    ensures Signal(st, p, tid, name).sems.Keys == st.sems.Keys
  {}

  lemma ChooseSems(st: State, p: int, now: real)
    requires CanScan(st, p) && (ChosenPos(st, p, now) == -1 ==> Running(st, p))
    ensures Choose(st, p, now).sems == st.sems
  {
    hide ChosenPos;
  }

  lemma {:induction false} SemNames(s: Sys, run: seq<Action>)
    requires CanRun(s, run)
    ensures After(s, run).st.sems.Keys == s.st.sems.Keys
  {
    hide Guard, Safe, Apply;
    if run != [] {
      SemNames(s, run[..|run| - 1]);
      SemNamesKept(After(s, run[..|run| - 1]), run[|run| - 1]);
    }
  }

  /** In every run from the start the semaphores are the configured ones: maxima as configured, values from the
      configured initial ones on, and threads woken in the order they slept. */
  lemma ConfiguredSemaphores(alpha: real, maxMultiprog: nat, config: map<string, SemConfig>, now: real,
      run: seq<Action>)
    requires ConfigOk(alpha, config) && now >= 0.0 && CanRun(Start(alpha, maxMultiprog, config, now), run)
    ensures var s := Start(alpha, maxMultiprog, config, now); var r := After(s, run);
      && r.st.sems.Keys == config.Keys
      && forall n :: n in config ==>
         && r.st.sems[n].max == config[n].max
         && Balanced(Observed(s, run, n), r.st.sems[n], config[n].init)
         && Completed(Observed(s, run, n)) <= config[n].init + Observed(s, run, n).signals
  {
    hide Inv, Start, Guard, Safe, Apply;
    var s := Start(alpha, maxMultiprog, config, now);
    StartInv(alpha, maxMultiprog, config, now);
    StartSems(alpha, maxMultiprog, config, now);
    SemNames(s, run);
    forall n | n in config
      ensures n in After(s, run).st.sems && After(s, run).st.sems[n].max == config[n].max
      ensures Balanced(Observed(s, run, n), After(s, run).st.sems[n], config[n].init)
      ensures Completed(Observed(s, run, n)) <= config[n].init + Observed(s, run, n).signals
    {
      assert n in s.st.sems.Keys;
      SemaphoreBalance(s, run, n);
      CompletedWaitsBounded(s, run, n);
    }
  }

  /** In every run from the start, with paired use at most the configured number of threads are inside. */
  lemma ConfiguredExclusion(alpha: real, maxMultiprog: nat, config: map<string, SemConfig>, now: real,
      run: seq<Action>, n: string)
    requires ConfigOk(alpha, config) && now >= 0.0 && CanRun(Start(alpha, maxMultiprog, config, now), run)
    requires n in config && Paired(Start(alpha, maxMultiprog, config, now), run, n)
    ensures var s := Start(alpha, maxMultiprog, config, now);
      && |Observed(s, run, n).inside| <= config[n].init
      && (config[n].init == 1 ==>
           forall t, u :: t in Observed(s, run, n).inside && u in Observed(s, run, n).inside ==> t == u)
  {
    hide Inv, Start, Guard, Safe, Apply;
    var s := Start(alpha, maxMultiprog, config, now);
    StartInv(alpha, maxMultiprog, config, now);
    StartSems(alpha, maxMultiprog, config, now);
    assert n in s.st.sems.Keys;
    MutualExclusion(s, run, n);
  }
}
