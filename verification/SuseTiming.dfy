// Burst accounting of one thread: the four timing helpers of suse_scheduler.c,
// and the log of state changes they are measured against.
module SuseTiming {
  datatype ThreadState = NEW | READY | EXEC | BLOCKED | EXIT

  /** `t_burst`; the struct's `*_end` fields only hold a value while it is subtracted. */
  datatype Burst = Burst(
    totalReady: real, readyStart: real,
    totalExec: real, execStart: real,
    lastBurst: real, lastEstimate: real,
    created: real, finished: real)

  /** One entry of a thread's life: the state entered, and when. */
  datatype Event = Event(state: ThreadState, at: real)
  type Log = seq<Event>

  function NewBurst(now: real): Burst {
    Burst(0.0, 0.0, 0.0, 0.0, 0.0, 0.0, now, 0.0)
  }

  function EstimateWith(alpha: real, b: Burst, lastBurst: real): real {
    alpha * lastBurst + (1.0 - alpha) * b.lastEstimate
  }

  function Estimate(alpha: real, b: Burst): real {
    EstimateWith(alpha, b, b.lastBurst)
  }

  /** `set_new_timings_for(from)`: close the segment the thread leaves. */
  function CloseSegment(b: Burst, from: ThreadState, now: real): Burst {
    match from
    case READY => b.(totalReady := b.totalReady + (now - b.readyStart))
    case EXEC => b.(lastBurst := now - b.execStart, totalExec := b.totalExec + (now - b.execStart))
    case _ => b
  }

  /** `set_state_start_timing(to)`, and the `finished` stamp of EXIT. */
  function OpenSegment(b: Burst, to: ThreadState, now: real): Burst {
    match to
    case READY => b.(readyStart := now)
    case EXEC => b.(execStart := now)
    case EXIT => b.(finished := now)
    case _ => b
  }

  function Switch(b: Burst, from: ThreadState, to: ThreadState, now: real): Burst {
    OpenSegment(CloseSegment(b, from, now), to, now)
  }

  /** The state changes the scheduler makes; EXEC to EXEC is a running thread that is kept. */
  predicate LegalChange(from: ThreadState, to: ThreadState) {
    || (from == NEW && to == READY)
    || (from == READY && to == EXEC)
    || (from == EXEC && to in {READY, EXEC, BLOCKED, EXIT})
    || (from == BLOCKED && to == READY)
  }

  ghost predicate WellFormed(log: Log) {
    && |log| > 0
    && log[0].state == NEW
    && forall i :: 0 < i < |log| ==> LegalChange(log[i - 1].state, log[i].state) && log[i - 1].at <= log[i].at
  }

  function Last(log: Log): Event
    requires |log| > 0
  {
    log[|log| - 1]
  }

  /** Time spent in `s` over the completed segments of the log. */
  ghost function Spent(log: Log, s: ThreadState): real {
    if |log| < 2 then 0.0
    else
      var n := |log|;
      Spent(log[..n - 1], s) + if log[n - 2].state == s then log[n - 1].at - log[n - 2].at else 0.0
  }

  /** The completed CPU bursts, oldest first. */
  ghost function Bursts(log: Log): seq<real> {
    if |log| < 2 then []
    else
      var n := |log|;
      var earlier := Bursts(log[..n - 1]);
      if log[n - 2].state == EXEC then earlier + [log[n - 1].at - log[n - 2].at] else earlier
  }

  /** The exponential average of a burst history, starting at 0. */
  ghost function Average(alpha: real, bursts: seq<real>): real {
    if bursts == [] then 0.0
    else alpha * bursts[|bursts| - 1] + (1.0 - alpha) * Average(alpha, bursts[..|bursts| - 1])
  }

  ghost function Sum(bursts: seq<real>): real {
    if bursts == [] then 0.0 else Sum(bursts[..|bursts| - 1]) + bursts[|bursts| - 1]
  }

  ghost function AllButLast(bursts: seq<real>): seq<real> {
    if bursts == [] then [] else bursts[..|bursts| - 1]
  }

  /** The timing record says what the log says. `folded`: the last burst is already in the estimate. */
  ghost predicate Accounts(alpha: real, b: Burst, log: Log, folded: bool) {
    && WellFormed(log)
    && b.created == log[0].at
    && b.totalReady == Spent(log, READY)
    && b.totalExec == Sum(Bursts(log))
    && b.lastBurst == (var bs := Bursts(log); if bs == [] then 0.0 else bs[|bs| - 1])
    && b.lastEstimate == Average(alpha, if folded then Bursts(log) else AllButLast(Bursts(log)))
    && (Last(log).state == READY ==> b.readyStart == Last(log).at)
    && (Last(log).state == EXEC ==> b.execStart == Last(log).at)
    && (Last(log).state == EXIT ==> b.finished == Last(log).at)
  }

  lemma NewAccounts(alpha: real, now: real)
    ensures Accounts(alpha, NewBurst(now), [Event(NEW, now)], false)
  {
  }

  /** Between pick and switch the stored estimate is the average; otherwise `get_estimate` is. */
  lemma {:induction false} EstimateIsAverage(alpha: real, b: Burst, log: Log)
    requires Accounts(alpha, b, log, false)
    ensures Estimate(alpha, b) == Average(alpha, Bursts(log))
  {
    var bs := Bursts(log);
    if bs == [] {
      assert b.lastBurst == 0.0 && b.lastEstimate == 0.0;
    } else {
      assert b.lastEstimate == Average(alpha, bs[..|bs| - 1]);
    }
  }

  /** `schedule_next_for` storing the chosen thread's estimate folds its last burst, once. */
  lemma {:induction false} PickFolds(alpha: real, b: Burst, log: Log)
    requires Accounts(alpha, b, log, false)
    ensures Accounts(alpha, b.(lastEstimate := Estimate(alpha, b)), log, true)
  {
    EstimateIsAverage(alpha, b, log);
  }

  lemma {:induction false} SwitchUnfolds(log: Log, e: Event)
    requires |log| > 0
    ensures Bursts(log + [e]) == if Last(log).state == EXEC then Bursts(log) + [e.at - Last(log).at] else Bursts(log)
    ensures forall s :: Spent(log + [e], s) == Spent(log, s) + if Last(log).state == s then e.at - Last(log).at else 0.0
  {
    var longer := log + [e];
    assert longer[..|longer| - 1] == log && longer[|longer| - 2] == Last(log);
  }

  lemma {:induction false} AppendBurst(alpha: real, bursts: seq<real>, x: real)
    ensures Sum(bursts + [x]) == Sum(bursts) + x
    ensures Average(alpha, bursts + [x]) == alpha * x + (1.0 - alpha) * Average(alpha, bursts)
    ensures AllButLast(bursts + [x]) == bursts
  {
    assert (bursts + [x])[..|bursts|] == bursts;
  }

  /** Every `move_tcb_to` keeps the record in step with the log. */
  lemma {:induction false} SwitchAccounts(alpha: real, b: Burst, log: Log, folded: bool, to: ThreadState, now: real)
    requires Accounts(alpha, b, log, folded)
    requires LegalChange(Last(log).state, to) && Last(log).at <= now && to != Last(log).state
    requires Last(log).state == EXEC ==> folded
    requires folded ==> Last(log).state == EXEC || to == EXEC
    requires !folded && to == EXEC ==> Bursts(log) == []
    ensures Accounts(alpha, Switch(b, Last(log).state, to, now), log + [Event(to, now)], to == EXEC)
  {
    hide Average, Sum, Bursts, Spent;
    SwitchUnfolds(log, Event(to, now));
    if Last(log).state == EXEC {
      AppendBurst(alpha, Bursts(log), now - Last(log).at);
    }
  }

  /** A running thread that is kept: its estimate absorbs the burst just closed, and a new one opens. */
  lemma {:induction false} KeepAccounts(alpha: real, b: Burst, log: Log, now: real)
    requires Accounts(alpha, b, log, true) && Last(log).state == EXEC && Last(log).at <= now
    ensures var kept := Switch(b, EXEC, EXEC, now).(lastEstimate := EstimateWith(alpha, b, now - b.execStart));
      Accounts(alpha, kept, log + [Event(EXEC, now)], true)
  {
    var burst := now - b.execStart;
    SwitchUnfolds(log, Event(EXEC, now));
    AppendBurst(alpha, Bursts(log), burst);
    var kept := Switch(b, EXEC, EXEC, now);
    assert kept.totalExec == Sum(Bursts(log) + [burst]);
    assert EstimateWith(alpha, b, burst) == Average(alpha, Bursts(log) + [burst]);
  }

  /** The five times of a thread add up to its age at its last change of state. */
  lemma {:induction false} SpentTelescopes(log: Log)
    requires WellFormed(log)
    ensures Spent(log, NEW) + Spent(log, READY) + Spent(log, EXEC) + Spent(log, BLOCKED) == Last(log).at - log[0].at
    ensures Spent(log, EXEC) == Sum(Bursts(log))
    ensures forall s :: Spent(log, s) >= 0.0
  {
    if |log| > 1 {
      var l := log[..|log| - 1];
      assert WellFormed(l);
      SpentTelescopes(l);
      assert log == l + [Last(log)];
      SwitchUnfolds(l, Last(log));
      assert LegalChange(Last(l).state, Last(log).state);
      if Last(l).state == EXEC {
        AppendBurst(0.0, Bursts(l), Last(log).at - Last(l).at);
      }
    }
  }

  lemma {:induction false} BurstsNonNegative(log: Log)
    requires WellFormed(log)
    ensures forall i :: 0 <= i < |Bursts(log)| ==> Bursts(log)[i] >= 0.0
  {
    if |log| > 1 {
      var l := log[..|log| - 1];
      assert WellFormed(l);
      BurstsNonNegative(l);
      assert log == l + [Last(log)];
      SwitchUnfolds(l, Last(log));
    }
  }

  lemma ProductNonNegative(x: real, y: real)
    requires x >= 0.0 && y >= 0.0
    ensures x * y >= 0.0
  {
  }

  lemma Convex(alpha: real, x: real, y: real, m: real)
    requires 0.0 <= alpha <= 1.0 && 0.0 <= x <= m && 0.0 <= y <= m
    ensures 0.0 <= alpha * x + (1.0 - alpha) * y <= m
  {
    ProductNonNegative(alpha, x);
    ProductNonNegative(alpha, m - x);
    ProductNonNegative(1.0 - alpha, y);
    ProductNonNegative(1.0 - alpha, m - y);
  }

  /** The average never leaves [0, largest burst]. */
  lemma {:induction false} AverageBounded(alpha: real, bursts: seq<real>, m: real)
    requires 0.0 <= alpha <= 1.0 && 0.0 <= m
    requires forall i :: 0 <= i < |bursts| ==> 0.0 <= bursts[i] <= m
    ensures 0.0 <= Average(alpha, bursts) <= m
  {
    if bursts != [] {
      AverageBounded(alpha, bursts[..|bursts| - 1], m);
      Convex(alpha, bursts[|bursts| - 1], Average(alpha, bursts[..|bursts| - 1]), m);
    }
  }

  function Times(x: real, y: real): real {
    x * y
  }

  /** How much a burst counts when `age` later ones have been folded in: alpha (1 - alpha)^age. */
  function Weight(alpha: real, age: nat): real {
    if age == 0 then alpha else Times(1.0 - alpha, Weight(alpha, age - 1))
  }

  ghost function WeightedSum(alpha: real, bursts: seq<real>): real {
    if bursts == [] then 0.0
    else Times(Weight(alpha, |bursts| - 1), bursts[0]) + WeightedSum(alpha, bursts[1..])
  }

  lemma {:induction false} WeightedAppend(alpha: real, bursts: seq<real>, x: real)
    ensures WeightedSum(alpha, bursts + [x]) == Times(alpha, x) + Times(1.0 - alpha, WeightedSum(alpha, bursts))
  {
    var longer := bursts + [x];
    if bursts == [] {
      assert longer[0] == x && longer[1..] == [];
    } else {
      hide Times;
      assert longer[0] == bursts[0] && longer[1..] == bursts[1..] + [x];
      WeightedAppend(alpha, bursts[1..], x);
      Distributed(1.0 - alpha, Weight(alpha, |bursts| - 1), bursts[0], WeightedSum(alpha, bursts[1..]));
    }
  }

  lemma Distributed(a: real, w: real, b: real, rest: real)
    ensures Times(Times(a, w), b) + Times(a, rest) == Times(a, Times(w, b) + rest)
  {}

  lemma AverageFolds(alpha: real, bursts: seq<real>)
    requires bursts != []
    ensures var n := |bursts| - 1;
      Average(alpha, bursts) == Times(alpha, bursts[n]) + Times(1.0 - alpha, Average(alpha, bursts[..n]))
  {
    var n := |bursts| - 1;
    AppendBurst(alpha, bursts[..n], bursts[n]);
    assert bursts[..n] + [bursts[n]] == bursts;
    hide Average;
    FoldIs(alpha, bursts[n], Average(alpha, bursts[..n]));
  }

  lemma FoldIs(alpha: real, x: real, a: real)
    ensures alpha * x + (1.0 - alpha) * a == Times(alpha, x) + Times(1.0 - alpha, a)
  {}

  /** The average in closed form: a burst with k later ones counts alpha (1 - alpha)^k. */
  lemma {:induction false} AverageIsWeighted(alpha: real, bursts: seq<real>)
    ensures Average(alpha, bursts) == WeightedSum(alpha, bursts)
  {
    if bursts != [] {
      var n := |bursts| - 1;
      AverageFolds(alpha, bursts);
      hide Average, WeightedSum, Times;
      AverageIsWeighted(alpha, bursts[..n]);
      WeightedAppend(alpha, bursts[..n], bursts[n]);
      assert bursts[..n] + [bursts[n]] == bursts;
    }
  }

  /** What the metrics print as ready and CPU time of a live thread at `now`. */
  function ReadyTime(b: Burst, s: ThreadState, now: real): real {
    if s == READY then now - b.readyStart + b.totalReady else b.totalReady
  }

  function ExecTime(b: Burst, s: ThreadState, now: real): real {
    if s == EXEC then now - b.execStart + b.totalExec else b.totalExec
  }

  /** Time spent in NEW and BLOCKED, which the program does not store. */
  ghost function IdleTime(log: Log, now: real): real
    requires |log| > 0
  {
    Spent(log, NEW) + Spent(log, BLOCKED) + if Last(log).state in {NEW, BLOCKED} then now - Last(log).at else 0.0
  }

  /** The time the thread has spent in `s` by `now`, its present stay included. */
  ghost function SpentBy(log: Log, s: ThreadState, now: real): real
    requires |log| > 0
  {
    Spent(log, s) + if Last(log).state == s then now - Last(log).at else 0.0
  }

  /** What is printed as ready time is the time spent READY, and as CPU time the time spent in EXEC. */
  lemma TimesAreSpent(alpha: real, b: Burst, log: Log, folded: bool, now: real)
    requires Accounts(alpha, b, log, folded)
    ensures ReadyTime(b, Last(log).state, now) == SpentBy(log, READY, now)
    ensures ExecTime(b, Last(log).state, now) == SpentBy(log, EXEC, now)
  {
    SpentTelescopes(log);
  }

  /** Ready, CPU and idle time partition the life of a thread; EXIT freezes it at `finished`. */
  lemma {:induction false} TimeIsConserved(alpha: real, b: Burst, log: Log, folded: bool, now: real)
    requires Accounts(alpha, b, log, folded) && Last(log).at <= now
    ensures var s := Last(log).state;
      var end := if s == EXIT then b.finished else now;
      && ReadyTime(b, s, now) == SpentBy(log, READY, now) && ExecTime(b, s, now) == SpentBy(log, EXEC, now)
      && ReadyTime(b, s, now) + ExecTime(b, s, now) + IdleTime(log, now) == end - b.created
      && ReadyTime(b, s, now) + ExecTime(b, s, now) <= end - b.created
      && ReadyTime(b, s, now) >= 0.0 && ExecTime(b, s, now) >= 0.0
      && b.totalReady + b.totalExec <= end - b.created
  {
    TimesAreSpent(alpha, b, log, folded, now);
    SpentTelescopes(log);
    ExitIsLast(log);
  }

  lemma {:induction false} ExitIsLast(log: Log)
    requires WellFormed(log)
    ensures forall i :: 0 <= i < |log| - 1 ==> log[i].state != EXIT
    ensures Spent(log, EXIT) == 0.0
  {
    forall i | 0 <= i < |log| - 1 ensures log[i].state != EXIT {
      assert LegalChange(log[i].state, log[i + 1].state);
    }
    if |log| > 1 {
      assert WellFormed(log[..|log| - 1]);
      ExitIsLast(log[..|log| - 1]);
      assert log[|log| - 2].state != EXIT;
    }
  }
}
