// How many calls of its program's `wakeup_threads` a woken thread waits for, over any run.
module SuseWakeups {
  import opened Lists
  import opened SuseState
  import opened SuseHalves
  import opened SuseInvariant
  import opened SuseSystem
  import opened SusePlacement
  import opened SuseRuns
  import opened SuseProgress
  import opened SuseLoops

  // ---- calls, and the round that wakes a thread ----

  /** The calls of `wakeup_threads` by program p that ended in the run. */
  ghost function CallsEnded(run: seq<Action>, p: int): nat {
    if run == [] then 0
    else var n := |run| - 1; CallsEnded(run[..n], p) + (if run[n].step == WakeEnds(p) then 1 else 0)
  }

  /** In this round of its loop p takes `t` from its wakeup list. */
  ghost predicate Wakes(s: Sys, a: Action, p: int, t: Id) {
    && a.step == WakeNext(p) && p in s.pc && s.pc[p].Waking? && p in s.st.programs
    && s.pc[p].i < |s.st.programs[p].wakeup| && s.st.programs[p].wakeup[s.pc[p].i] == t
  }

  ghost predicate WokenIn(s: Sys, run: seq<Action>, p: int, t: Id)
    requires CanRun(s, run)
  {
    run != [] && var n := |run| - 1;
    WokenIn(s, run[..n], p, t) || Wakes(After(s, run[..n]), run[n], p, t)
  }

  ghost predicate InCall(s: Sys, p: int) {
    p in s.pc && s.pc[p].Waking?
  }

  /** `t` is still listed, and was the n-th of the list, counting from 1, when the present call began. */
  ghost predicate Listed(s: Sys, p: int, t: Id, n: nat) {
    && p in s.st.programs && p in s.pc && n >= 1
    && var w := s.st.programs[p].wakeup;
    if s.pc[p].Waking? then
      var m := s.pc[p].i;
      if n - 1 >= 2 * m then n - 1 - m < |w| && w[n - 1 - m] == t
      else n % 2 == 0 && n / 2 <= |w| && w[n / 2 - 1] == t
    else n <= |w| && w[n - 1] == t
  }

  // ---- what one step does to the list ----

  lemma OwnPrepares(s: Sys, a: Action, p: int)
    requires Guard(s, a) && Safe(s, a) && p in s.st.programs && OwnStep(a.step, p) && !a.step.WakeNext?
    ensures p in Prepared(s, a).programs && s.st.programs[p].wakeup <= Prepared(s, a).programs[p].wakeup
  {
    hide MoveSafe, Choose, ChosenPos, Signal;
    match a.step
    case Signals(_, _, _) => SignalAdds(s, a, p);
    case Schedules(q) => ChoosePrograms(s.st, q, a.now);
    case _ =>
  }

  /** Only its own rounds take a thread from a program's wakeup list. */
  lemma WakeupGrows(s: Sys, a: Action, p: int)
    requires Inv(s) && Guard(s, a) && Safe(s, a) && p in s.st.programs && a.step != WakeNext(p)
    ensures p in Apply(s, a).st.programs && s.st.programs[p].wakeup <= Apply(s, a).st.programs[p].wakeup
  {
    hide Inv, Guard, Safe, Apply, Moved, Prepared, Move, MoveSafe;
    if OwnStep(a.step, p) {
      OwnPrepares(s, a, p);
      NormalForm(s, a);
      if Moved(s, a).Some? {
        MovesAway(s, a);
        MoveFrame(Prepared(s, a), Moved(s, a).value.t, Moved(s, a).value.to, a.now);
      }
    } else {
      OthersOnlyAdd(s, a, p);
    }
  }

  predicate CallStep(step: Step, p: int) {
    step == WakeBegins(p) || step == WakeNext(p) || step == WakeEnds(p)
  }

  /** A program enters, goes through and leaves its call only by the steps of `wakeup_threads`. */
  lemma CallKept(s: Sys, a: Action, p: int)
    requires Inv(s) && Guard(s, a) && Safe(s, a) && p in s.st.programs && !CallStep(a.step, p)
    ensures p in s.pc && p in Apply(s, a).pc && (InCall(Apply(s, a), p) <==> InCall(s, p))
    ensures InCall(s, p) ==> Apply(s, a).pc[p] == s.pc[p]
  {
    if OwnStep(a.step, p) {
      PcOf(s, p);
      OwnOutside(s, a, p);
    } else {
      hide Inv, Guard, Safe, Apply;
      OthersOnlyAdd(s, a, p);
    }
  }

  lemma PcOf(s: Sys, p: int)
    requires Inv(s) && p in s.st.programs
    ensures p in s.pc
  {}

  lemma OwnOutside(s: Sys, a: Action, p: int)
    requires Guard(s, a) && Safe(s, a) && p in s.pc && p in s.st.programs
    requires OwnStep(a.step, p) && !CallStep(a.step, p)
    ensures p in Apply(s, a).pc && !InCall(s, p) && !InCall(Apply(s, a), p)
  {
    hide MoveSafe, Move, Wait, Signal, Join, WakeOne, Admit, Choose, ChosenPos;
  }

  lemma CallTurns(s: Sys, a: Action, p: int)
    requires Guard(s, a) && Safe(s, a) && (a.step == WakeBegins(p) || a.step == WakeEnds(p))
    ensures Apply(s, a).st == s.st && p in s.pc
    ensures Apply(s, a).pc == s.pc[p := if a.step.WakeBegins? then Waking(0) else Idle]
    ensures a.step.WakeBegins? ==> !InCall(s, p)
    ensures a.step.WakeEnds? ==> InCall(s, p) && p in s.st.programs && s.pc[p].i >= |s.st.programs[p].wakeup|
  {}

  // ---- one step of the wait ----

  lemma ListedOn(s: Sys, a: Action, p: int, t: Id, n: nat)
    requires Inv(s) && Guard(s, a) && Safe(s, a) && Listed(s, p, t, n) && !CallStep(a.step, p)
    ensures Listed(Apply(s, a), p, t, n)
  {
    hide Inv, Guard, Safe, Apply;
    WakeupGrows(s, a, p);
    CallKept(s, a, p);
  }

  lemma ListedTurn(s: Sys, a: Action, p: int, t: Id, n: nat)
    requires Guard(s, a) && Safe(s, a) && Listed(s, p, t, n) && (a.step == WakeBegins(p) || a.step == WakeEnds(p))
    ensures a.step.WakeBegins? ==> Listed(Apply(s, a), p, t, n)
    ensures a.step.WakeEnds? ==> n % 2 == 0 && Listed(Apply(s, a), p, t, n / 2)
  {
    hide Guard, Safe, Apply;
    CallTurns(s, a, p);
  }

  lemma ListedOnce(s: Sys, p: int)
    requires Inv(s) && p in s.st.programs
    ensures NoDup(s.st.programs[p].wakeup)
  {
    hide Placed, Counted, Timed, Phases;
    assert NoDup(Queue(s, OnWakeup(p)));
  }

  /** A round wakes the n-th thread exactly when it gets to its place, which it does only for odd n. */
  lemma ListedRound(s: Sys, a: Action, p: int, t: Id, n: nat)
    requires Inv(s) && Guard(s, a) && Safe(s, a) && Listed(s, p, t, n) && a.step == WakeNext(p)
    ensures Wakes(s, a, p, t) ==> n % 2 == 1
    ensures !Wakes(s, a, p, t) ==> Listed(Apply(s, a), p, t, n)
    ensures InCall(s, p) && InCall(Apply(s, a), p)
  {
    hide Inv, Guard, Safe, Apply;
    RoundMoves(s, a, p);
    ListedOnce(s, p);
    RoundIsInCall(s, a, p);
  }

  lemma RoundIsInCall(s: Sys, a: Action, p: int)
    requires Guard(s, a) && a.step == WakeNext(p)
    ensures InCall(s, p)
  {}

  // ---- over a run ----

  lemma AtLeast(a: int, k: int)
    requires k >= 0
    ensures a >= 1 ==> a * k >= k
    ensures a <= -1 ==> a * k <= -k
  {}

  lemma OnlyZero(a: int, k: nat)
    requires 0 <= a * k < k
    ensures a == 0
  {
    AtLeast(a, k);
  }

  lemma Minus(a: int, b: int, k: int)
    ensures (a - b) * k == a * k - b * k
  {}

  lemma Regroup(k: int, q: int)
    ensures (2 * k) * q == (2 * q) * k
  {}

  lemma QuotientOf(x: nat, n: nat, k: nat)
    requires k > 0 && x == n * k
    ensures x % k == 0 && x / k == n
  {
    var q, r := x / k, x % k;
    assert x == q * k + r;
    Minus(n, q, k);
    OnlyZero(n - q, k);
  }

  /** A number halved: its half counts the doubled unit. */
  lemma HalfAgain(n: nat, k: nat)
    requires n % 2 == 0
    ensures n * k == (n / 2) * (2 * k)
  {
    assert n == 2 * (n / 2);
  }

  lemma EvenMultiple(x: nat, n: nat, k: nat)
    requires k > 0 && x == n * k && x % (2 * k) == 0
    ensures n % 2 == 0
  {
    var q := x / (2 * k);
    assert x == (2 * k) * q;
    Regroup(k, q);
    Minus(n, 2 * q, k);
    OnlyZero(n - 2 * q, k);
  }

  lemma HalfDivides(x: nat, k: nat)
    requires k > 0 && x % (2 * k) == 0
    ensures x % k == 0
  {
    var q := x / (2 * k);
    assert x == (2 * k) * q;
    Regroup(k, q);
    QuotientOf(x, 2 * q, k);
  }

  /** Where the thread at position `i` stands after the run: still listed, its place halved exactly by each call, or
      woken, in a call that found it at an odd place. */
  ghost predicate Awaits(s: Sys, woken: bool, p: int, t: Id, i: nat, calls: nat) {
    if woken then (i + 1) % Pow2(calls + if InCall(s, p) then 1 else 0) != 0
    else exists n: nat :: i + 1 == n * Pow2(calls) && Listed(s, p, t, n)
  }

  lemma AwaitsStep(s: Sys, a: Action, woken: bool, p: int, t: Id, i: nat, calls: nat)
    requires Inv(s) && Guard(s, a) && Safe(s, a) && p in s.st.programs && Awaits(s, woken, p, t, i, calls)
    ensures Awaits(Apply(s, a), woken || Wakes(s, a, p, t), p, t, i, calls + if a.step == WakeEnds(p) then 1 else 0)
  {
    hide Inv, Guard, Safe, Apply, Listed, InCall;
    if woken {
      WokenLasts(s, a, p, i, calls);
    } else {
      var n: nat :| i + 1 == n * Pow2(calls) && Listed(s, p, t, n);
      if a.step == WakeNext(p) {
        ListedRound(s, a, p, t, n);
        if Wakes(s, a, p, t) && (i + 1) % Pow2(calls + 1) == 0 {
          EvenMultiple(i + 1, n, Pow2(calls));
        }
      } else if a.step == WakeEnds(p) {
        ListedTurn(s, a, p, t, n);
        HalfAgain(n, Pow2(calls));
        assert Pow2(calls + 1) == 2 * Pow2(calls);
      } else if a.step == WakeBegins(p) {
        ListedTurn(s, a, p, t, n);
      } else {
        ListedOn(s, a, p, t, n);
      }
    }
  }

  lemma WokenLasts(s: Sys, a: Action, p: int, i: nat, calls: nat)
    requires Inv(s) && Guard(s, a) && Safe(s, a) && p in s.st.programs
    requires (i + 1) % Pow2(calls + if InCall(s, p) then 1 else 0) != 0
    ensures var c := calls + if a.step == WakeEnds(p) then 1 else 0;
      (i + 1) % Pow2(c + if InCall(Apply(s, a), p) then 1 else 0) != 0
  {
    hide Inv, Guard, Safe, Apply;
    if a.step == WakeNext(p) {
      RoundIsInCall(s, a, p);
      RoundMoves(s, a, p);
    } else if CallStep(a.step, p) {
      CallTurns(s, a, p);
      if a.step == WakeBegins(p) && (i + 1) % Pow2(calls + 1) == 0 {
        HalfDivides(i + 1, Pow2(calls));
      }
    } else {
      CallKept(s, a, p);
    }
  }

  lemma {:induction false} AwaitsRun(s: Sys, run: seq<Action>, p: int, t: Id, i: nat)
    requires Inv(s) && CanRun(s, run) && p in s.st.programs && !InCall(s, p)
    requires i < |s.st.programs[p].wakeup| && s.st.programs[p].wakeup[i] == t
    ensures p in After(s, run).st.programs
    ensures Awaits(After(s, run), WokenIn(s, run, p, t), p, t, i, CallsEnded(run, p))
  {
    hide Inv, Guard, Safe, Apply, Awaits;
    if run == [] {
      AwaitsStart(s, p, t, i);
    } else {
      var n := |run| - 1;
      AwaitsRun(s, run[..n], p, t, i);
      RunInv(s, run[..n]);
      AwaitsStep(After(s, run[..n]), run[n], WokenIn(s, run[..n], p, t), p, t, i, CallsEnded(run[..n], p));
      ProgramStays(After(s, run[..n]), run[n], p);
    }
  }

  lemma AwaitsStart(s: Sys, p: int, t: Id, i: nat)
    requires Inv(s) && p in s.st.programs && !InCall(s, p)
    requires i < |s.st.programs[p].wakeup| && s.st.programs[p].wakeup[i] == t
    ensures Awaits(s, false, p, t, i, 0)
  {
    PcOf(s, p);
    hide Inv;
    assert i + 1 == (i + 1) * Pow2(0) && Listed(s, p, t, i + 1);
  }

  lemma ProgramStays(s: Sys, a: Action, p: int)
    requires Inv(s) && Guard(s, a) && Safe(s, a) && p in s.st.programs
    ensures p in Apply(s, a).st.programs
  {
    hide Inv, Guard, Safe, Apply;
    if a.step == WakeNext(p) {
      RoundMoves(s, a, p);
    } else {
      WakeupGrows(s, a, p);
    }
  }

  lemma AwaitsOutside(s: Sys, woken: bool, p: int, t: Id, i: nat, calls: nat)
    requires Awaits(s, woken, p, t, i, calls) && !InCall(s, p)
    ensures var k := Pow2(calls);
      && (woken <==> (i + 1) % k != 0) && (i + 1 < k ==> woken)
      && (!woken ==>
           && p in s.st.programs && 1 <= (i + 1) / k <= |s.st.programs[p].wakeup|
           && s.st.programs[p].wakeup[(i + 1) / k - 1] == t)
  {
    hide Pow2, InCall;
    if !woken {
      var n: nat :| i + 1 == n * Pow2(calls) && Listed(s, p, t, n);
      ListedOutside(s, p, t, n);
      QuotientOf(i + 1, n, Pow2(calls));
      AtLeast(n, Pow2(calls));
    }
  }

  lemma ListedOutside(s: Sys, p: int, t: Id, n: nat)
    requires Listed(s, p, t, n) && !InCall(s, p)
    ensures p in s.st.programs && 1 <= n <= |s.st.programs[p].wakeup| && s.st.programs[p].wakeup[n - 1] == t
  {}

  /** Whatever anyone does meanwhile, and however many threads arrive behind it: after c calls of its program's own
      `wakeup_threads` the thread at position i has been woken exactly when 2^c does not divide i + 1; if it does, the
      thread stands at position (i + 1) / 2^c - 1. */
  lemma WokenIff(s: Sys, run: seq<Action>, p: int, t: Id, i: nat)
    requires Inv(s) && CanRun(s, run) && p in s.st.programs && !InCall(s, p)
    requires i < |s.st.programs[p].wakeup| && s.st.programs[p].wakeup[i] == t && !InCall(After(s, run), p)
    ensures var k := Pow2(CallsEnded(run, p)); var r := After(s, run);
      && p in r.st.programs
      && (WokenIn(s, run, p, t) <==> (i + 1) % k != 0)
      && (!WokenIn(s, run, p, t) ==>
           1 <= (i + 1) / k <= |r.st.programs[p].wakeup| && r.st.programs[p].wakeup[(i + 1) / k - 1] == t)
    ensures i + 1 < Pow2(CallsEnded(run, p)) ==> WokenIn(s, run, p, t)
  {
    hide Inv, Guard, Safe, Apply, WokenIn;
    AwaitsRun(s, run, p, t, i);
    hide Pow2, Awaits;
    AwaitsOutside(After(s, run), WokenIn(s, run, p, t), p, t, i, CallsEnded(run, p));
  }

  // ---- being woken is becoming READY ----

  lemma WakesReady(s: Sys, a: Action, p: int, t: Id)
    requires Inv(s) && Guard(s, a) && Safe(s, a) && Wakes(s, a, p, t)
    ensures p in Apply(s, a).st.programs && t in Apply(s, a).st.programs[p].ready
  {
    hide Inv, Guard, Safe, Apply;
    RoundMoves(s, a, p);
    var ready := s.st.programs[p].ready + [t];
    assert ready[|ready| - 1] == t;
  }

  /** While a program only wakes threads, its ready list only grows. */
  lemma ReadyGrows(s: Sys, a: Action, p: int)
    requires Inv(s) && Guard(s, a) && Safe(s, a) && p in s.st.programs && (OwnStep(a.step, p) ==> WakeStep(a.step))
    ensures p in Apply(s, a).st.programs && s.st.programs[p].ready <= Apply(s, a).st.programs[p].ready
  {
    hide Inv, Guard, Safe, Apply;
    if !OwnStep(a.step, p) {
      OthersOnlyAdd(s, a, p);
    } else if a.step == WakeNext(p) {
      RoundMoves(s, a, p);
    } else {
      CallTurns(s, a, p);
    }
  }

  lemma {:induction false} WokenStaysReady(s: Sys, run: seq<Action>, p: int, t: Id)
    requires Inv(s) && CanRun(s, run) && p in s.st.programs && WokenIn(s, run, p, t)
    requires forall j :: 0 <= j < |run| && OwnStep(run[j].step, p) ==> WakeStep(run[j].step)
    ensures p in After(s, run).st.programs && t in After(s, run).st.programs[p].ready
  {
    hide Inv, Guard, Safe, Apply;
    var n := |run| - 1;
    var before := After(s, run[..n]);
    RunInv(s, run[..n]);
    if WokenIn(s, run[..n], p, t) {
      WokenStaysReady(s, run[..n], p, t);
      ReadyGrows(before, run[n], p);
    } else {
      WakesReady(before, run[n], p, t);
    }
  }

  /** So a program that goes on calling `wakeup_threads` has the thread at position i of its wakeup list READY after k
      calls with i + 1 < 2^k, whatever arrives meanwhile. */
  lemma ReadyAfterCalls(s: Sys, run: seq<Action>, p: int, t: Id, i: nat)
    requires Inv(s) && CanRun(s, run) && p in s.st.programs && !InCall(s, p)
    requires i < |s.st.programs[p].wakeup| && s.st.programs[p].wakeup[i] == t
    requires forall j :: 0 <= j < |run| && OwnStep(run[j].step, p) ==> WakeStep(run[j].step)
    requires i + 1 < Pow2(CallsEnded(run, p))
    ensures p in After(s, run).st.programs && t in After(s, run).st.programs[p].ready
  {
    hide Inv, Guard, Safe, Apply, WokenIn, Pow2;
    AwaitsRun(s, run, p, t, i);
    if !WokenIn(s, run, p, t) {
      var n: nat :| i + 1 == n * Pow2(CallsEnded(run, p)) && Listed(After(s, run), p, t, n);
      AtLeast(n, Pow2(CallsEnded(run, p)));
    }
    WokenStaysReady(s, run, p, t);
  }
}
