// Every blocked thread keeps exactly one pending waker, across all programs and semaphores.
module SuseWakers {
  import opened Lists
  import opened SuseTiming
  import opened SuseState
  import opened SuseInvariant
  import opened SuseSystem
  import opened SuseSafety
  import opened SusePlacement

  /** The same threads are BLOCKED, but possibly `t`. */
  ghost predicate SameBlocked(a: State, b: State, t: Id) {
    forall x :: x != t ==> (Is(b, x, BLOCKED) <==> Is(a, x, BLOCKED))
  }

  lemma QueuesKept(s: Sys, r: Sys)
    requires OneWaker(s)
    requires forall w :: Queue(r, w) == Queue(s, w)
    requires forall t :: Is(r.st, t, BLOCKED) <==> Is(s.st, t, BLOCKED)
    ensures OneWaker(r)
  {
    assert forall t, w :: InQueue(r, t, w) <==> InQueue(s, t, w);
    forall t | Is(r.st, t, BLOCKED) ensures exists w :: InQueue(r, t, w) {
      var w :| InQueue(s, t, w);
      assert InQueue(r, t, w);
    }
  }

  lemma Enqueued(s: Sys, r: Sys, t: Id, q: Waker)
    requires OneWaker(s) && !Is(s.st, t, BLOCKED) && Is(r.st, t, BLOCKED) && SameProgram(t, q)
    requires SameBlocked(s.st, r.st, t)
    requires Queue(r, q) == Queue(s, q) + [t]
    requires forall w :: w != q ==> Queue(r, w) == Queue(s, w)
    ensures OneWaker(r)
  {
    assert forall w :: !InQueue(s, t, w);
    AppendMember(Queue(s, q), t);
    assert forall x, w :: InQueue(r, x, w) <==> InQueue(s, x, w) || (x == t && w == q);
    forall w ensures NoDup(Queue(r, w)) {
      if w == q {
        assert !InQueue(s, t, q);
      }
    }
    forall x | Is(r.st, x, BLOCKED) ensures exists w :: InQueue(r, x, w) {
      if x == t {
        assert InQueue(r, t, q);
      } else {
        var w :| InQueue(s, x, w);
        assert InQueue(r, x, w);
      }
    }
  }

  lemma Dequeued(s: Sys, r: Sys, t: Id, q: Waker)
    requires OneWaker(s) && InQueue(s, t, q) && !Is(r.st, t, BLOCKED)
    requires SameBlocked(s.st, r.st, t)
    requires Queue(r, q) == Remove(Queue(s, q), t)
    requires forall w :: w != q ==> Queue(r, w) == Queue(s, w)
    ensures OneWaker(r)
  {
    assert NoDup(Queue(s, q));
    assert forall x, w :: InQueue(r, x, w) <==> InQueue(s, x, w) && x != t by {
      forall x, w ensures InQueue(r, x, w) <==> InQueue(s, x, w) && x != t {
        if w != q {
          assert InQueue(s, t, w) ==> w == q;
        }
      }
    }
    forall x | Is(r.st, x, BLOCKED) ensures exists w :: InQueue(r, x, w) {
      var w :| InQueue(s, x, w);
      assert InQueue(r, x, w);
    }
  }

  lemma Handed(s: Sys, r: Sys, t: Id, q: Waker, v: Waker)
    requires OneWaker(s) && InQueue(s, t, q) && q != v && SameProgram(t, v)
    requires forall x :: Is(r.st, x, BLOCKED) <==> Is(s.st, x, BLOCKED)
    requires Queue(r, q) == Remove(Queue(s, q), t) && Queue(r, v) == Queue(s, v) + [t]
    requires forall w :: w != q && w != v ==> Queue(r, w) == Queue(s, w)
    ensures OneWaker(r)
  {
    assert NoDup(Queue(s, q));
    assert !InQueue(s, t, v);
    AppendMember(Queue(s, v), t);
    assert forall x, w :: InQueue(r, x, w) <==> if x == t then w == v else InQueue(s, x, w) by {
      forall x, w ensures InQueue(r, x, w) <==> if x == t then w == v else InQueue(s, x, w) {
        if x == t && InQueue(s, t, w) {
          assert w == q;
        }
      }
    }
    forall x | Is(r.st, x, BLOCKED) ensures exists w :: InQueue(r, x, w) {
      if x == t {
        assert InQueue(r, t, v);
      } else {
        var w :| InQueue(s, x, w);
        assert InQueue(r, x, w);
      }
    }
    forall w ensures NoDup(Queue(r, w)) {
    }
  }

  /** The joined lists still owed are the same when no thread's list, end or release count changes. */
  lemma JoinsKept(s: Sys, r: Sys)
    requires r.st.tcbs.Keys == s.st.tcbs.Keys
    requires forall u :: u in s.st.tcbs ==>
      && r.st.tcbs[u].joined == s.st.tcbs[u].joined
      && (r.st.tcbs[u].state == EXIT <==> s.st.tcbs[u].state == EXIT)
      && Released(r, u) == Released(s, u)
    ensures forall u :: Queue(r, OnJoin(u)) == Queue(s, OnJoin(u))
  {
  }

  lemma QueuesByKind(s: Sys, r: Sys)
    requires r.st.sems == s.st.sems
    requires forall p :: Queue(r, OnWakeup(p)) == Queue(s, OnWakeup(p))
    requires forall u :: Queue(r, OnJoin(u)) == Queue(s, OnJoin(u))
    ensures forall w :: Queue(r, w) == Queue(s, w)
  {
    forall w ensures Queue(r, w) == Queue(s, w) {
      match w
      case OnSem(_) =>
      case OnWakeup(_) =>
      case OnJoin(_) =>
    }
  }

  /** `r` is `s` after thread `t` went to `to`, as far as wakers can tell. */
  ghost predicate Went(s: Sys, r: Sys, t: Id, to: ThreadState) {
    && t in s.st.tcbs && r.st.tcbs.Keys == s.st.tcbs.Keys
    && (forall u :: u in s.st.tcbs ==> r.st.tcbs[u].state == if u == t then to else s.st.tcbs[u].state)
  }

  lemma MovedWent(s: Sys, a: Action)
    requires Safe(s, a) && Moved(s, a).Some?
    ensures var m := Moved(s, a).value; var b := Prepared(s, a); var r := Apply(s, a);
      && Went(s, r, m.t, m.to) && r.st.sems == b.sems
      && (forall u :: u in b.tcbs ==> r.st.tcbs[u].joined == b.tcbs[u].joined)
      && r.st.programs.Keys == b.programs.Keys
      && (forall p :: p in b.programs ==> r.st.programs[p].wakeup == b.programs[p].wakeup)
  {
    hide Move, Switch, Safe, Apply, Moved, Prepared;
    NotCreating(s, a);
    PreparedKeeps(s, a);
    var m := Moved(s, a).value;
    MovesAway(s, a);
    MoveFrame(Prepared(s, a), m.t, m.to, a.now);
  }

  /** `t` is the thread of program `p` in EXEC. */
  ghost predicate OnlyExec(st: State, p: int, t: Id) {
    Is(st, t, EXEC) && t.socket == p && forall u :: Is(st, u, EXEC) && u.socket == p ==> u == t
  }

  lemma ExecIsOnly(st: State, p: int)
    requires Placed(st) && Running(st, p)
    ensures OnlyExec(st, p, Exec(st, p))
  {
    Contents(st);
  }

  /** Release counts do not change when the closing programs neither move on nor swap their EXEC threads. */
  lemma ReleasedKept(s: Sys, r: Sys, t: Id, to: ThreadState)
    requires Went(s, r, t, to) && forall u :: u in s.st.tcbs ==> r.st.tcbs[u].joined == s.st.tcbs[u].joined
    requires forall p, k :: AtPc(s, p, Closing(k)) <==> AtPc(r, p, Closing(k))
    requires (to != EXEC && s.st.tcbs[t].state != EXEC) || forall k :: !AtPc(s, t.socket, Closing(k))
    ensures forall u :: u in s.st.tcbs ==> Released(r, u) == Released(s, u)
  {
    forall u | u in s.st.tcbs ensures Released(r, u) == Released(s, u) {
      if u.socket in s.pc && s.pc[u.socket].Closing? {
        assert AtPc(s, u.socket, Closing(s.pc[u.socket].k));
      }
      if u.socket in r.pc && r.pc[u.socket].Closing? {
        assert AtPc(r, u.socket, Closing(r.pc[u.socket].k));
      }
    }
  }

  /** A wait that blocks puts the running thread at the end of the semaphore's queue and changes no other queue. */
  lemma BlockWaker(s: Sys, a: Action)
    requires OneWaker(s) && Guard(s, a) && Safe(s, a) && a.step.Waits?
      && WaitBlocks(s.st, a.step.p, a.step.tid, a.step.name)
    requires Exec(s.st, a.step.p).socket == a.step.p
    ensures OneWaker(Apply(s, a))
    ensures var q := OnSem(a.step.name); var r := Apply(s, a);
      && Queue(r, q) == Queue(s, q) + [Exec(s.st, a.step.p)]
      && forall w :: w != q ==> Queue(r, w) == Queue(s, w)
  {
    var t := Exec(s.st, a.step.p);
    var r := Apply(s, a);
    MovedWent(s, a);
    JoinsKept(s, r);
    forall w | w != OnSem(a.step.name) ensures Queue(r, w) == Queue(s, w) {
      match w
      case OnSem(_) =>
      case OnWakeup(_) =>
      case OnJoin(_) =>
    }
    Enqueued(s, r, t, OnSem(a.step.name));
  }

  /** A join puts the running thread at the end of those that joined the target and changes no other queue. */
  lemma JoinWaker(s: Sys, a: Action)
    requires OneWaker(s) && Guard(s, a) && Safe(s, a) && a.step.Joins? && !Is(s.st, Id(a.step.p, a.step.tid), EXIT)
    requires Exec(s.st, a.step.p).socket == a.step.p
    ensures OneWaker(Apply(s, a))
    ensures var q := OnJoin(Id(a.step.p, a.step.tid)); var r := Apply(s, a);
      && Queue(r, q) == Queue(s, q) + [Exec(s.st, a.step.p)]
      && forall w :: w != q ==> Queue(r, w) == Queue(s, w)
  {
    var t := Exec(s.st, a.step.p);
    var v := Id(a.step.p, a.step.tid);
    var r := Apply(s, a);
    MovedWent(s, a);
    forall w | w != OnJoin(v) ensures Queue(r, w) == Queue(s, w) {
      match w
      case OnSem(_) =>
      case OnWakeup(_) =>
      case OnJoin(u) => assert Released(r, u) == Released(s, u);
    }
    assert Released(s, v) == 0 && Released(r, v) == 0;
    Enqueued(s, r, t, OnJoin(v));
  }

  lemma WakeQueues(s: Sys, a: Action)
    requires Guard(s, a) && Safe(s, a) && a.step.WakeNext?
    ensures var r := Apply(s, a); var p := a.step.p; var i := s.pc[p].i;
      && (forall w :: w != OnWakeup(p) ==> Queue(r, w) == Queue(s, w))
      && Queue(r, OnWakeup(p)) == Queue(s, OnWakeup(p))[..i] + Queue(s, OnWakeup(p))[i + 1..]
      && Went(s, r, Queue(s, OnWakeup(p))[i], READY)
  {
    hide Move, MoveSafe;
    var p := a.step.p;
    var r := Apply(s, a);
    MovedWent(s, a);
    ReleasedKept(s, r, s.st.programs[p].wakeup[s.pc[p].i], READY);
    JoinsKept(s, r);
    forall v | v != OnWakeup(p) ensures Queue(r, v) == Queue(s, v) {
      match v
      case OnSem(_) =>
      case OnWakeup(_) =>
      case OnJoin(_) =>
    }
  }

  lemma WakeWaker(s: Sys, a: Action)
    requires OneWaker(s) && Guard(s, a) && Safe(s, a) && a.step.WakeNext?
    ensures OneWaker(Apply(s, a))
    ensures forall w :: w != OnWakeup(a.step.p) ==> Queue(Apply(s, a), w) == Queue(s, w)
  {
    WakeQueues(s, a);
    var q := OnWakeup(a.step.p);
    var w := Queue(s, q);
    var i := s.pc[a.step.p].i;
    assert NoDup(w) && w == s.st.programs[a.step.p].wakeup;
    RemoveAt(w, w[i], i);
    assert InQueue(s, w[i], q);
    Dequeued(s, Apply(s, a), w[i], q);
  }

  /** The closing thread's queue loses its head, the thread released, and no other queue changes. */
  lemma UnjoinWaker(s: Sys, a: Action)
    requires OneWaker(s) && Guard(s, a) && Safe(s, a) && a.step.Unjoins?
    requires OnlyExec(s.st, a.step.p, Exec(s.st, a.step.p))
    ensures OneWaker(Apply(s, a))
    ensures var u := Exec(s.st, a.step.p); var q := Queue(s, OnJoin(u)); var r := Apply(s, a);
      && q != [] && q[0] == s.st.tcbs[u].joined[s.pc[a.step.p].k] && Is(r.st, q[0], READY)
      && Queue(r, OnJoin(u)) == q[1..] && forall w :: w != OnJoin(u) ==> Queue(r, w) == Queue(s, w)
  {
    hide Move, OneWaker;
    var p := a.step.p;
    var u := Exec(s.st, p);
    var k := s.pc[p].k;
    var joined := s.st.tcbs[u].joined;
    var r := Apply(s, a);
    MovedWent(s, a);
    assert Queue(s, OnJoin(u)) == joined[k..];
    assert joined[k..][0] == joined[k];
    RemoveHead(joined[k..]);
    assert joined[k..][1..] == joined[k + 1..];
    assert Queue(r, OnJoin(u)) == joined[k + 1..];
    forall w | w != OnJoin(u) ensures Queue(r, w) == Queue(s, w) {
      match w
      case OnSem(_) =>
      case OnWakeup(_) =>
      case OnJoin(v) => assert Released(r, v) == Released(s, v);
    }
    assert InQueue(s, joined[k], OnJoin(u));
    Dequeued(s, r, joined[k], OnJoin(u));
  }

  /** The semaphore's queue loses its head, which goes to the end of its own program's wakeup list; no other queue
      changes. */
  lemma SignalWaker(s: Sys, a: Action)
    requires OneWaker(s) && Guard(s, a) && Safe(s, a) && a.step.Signals?
      && SignalWakes(s.st, a.step.p, a.step.tid, a.step.name)
    ensures OneWaker(Apply(s, a))
    ensures var n := OnSem(a.step.name); var q := Queue(s, n); var r := Apply(s, a);
      && q != [] && var v := OnWakeup(q[0].socket);
      && Queue(r, n) == q[1..] && Queue(r, v) == Queue(s, v) + [q[0]]
      && forall w :: w != n && w != v ==> Queue(r, w) == Queue(s, w)
  {
    var name := a.step.name;
    var blocked := s.st.sems[name].blocked;
    var t := blocked[0];
    var r := Apply(s, a);
    RemoveHead(blocked);
    JoinsKept(s, r);
    forall w | w != OnSem(name) && w != OnWakeup(t.socket) ensures Queue(r, w) == Queue(s, w) {
      match w
      case OnSem(_) =>
      case OnWakeup(_) =>
      case OnJoin(_) =>
    }
    assert InQueue(s, t, OnSem(name));
    Handed(s, r, t, OnSem(name), OnWakeup(t.socket));
  }

  lemma FinishWaker(s: Sys, a: Action)
    requires OneWaker(s) && Guard(s, a) && Safe(s, a) && a.step.Finishes?
    requires OnlyExec(s.st, a.step.p, Exec(s.st, a.step.p)) && PhaseOk(s.st, s.pc[a.step.p], a.step.p)
    ensures OneWaker(Apply(s, a))
  {
    var u := Exec(s.st, a.step.p);
    var r := Apply(s, a);
    MovedWent(s, a);
    assert Queue(s, OnJoin(u)) == [] && Queue(r, OnJoin(u)) == [];
    forall w ensures Queue(r, w) == Queue(s, w) {
      match w
      case OnSem(_) =>
      case OnWakeup(_) =>
      case OnJoin(v) =>
        if v != u {
          assert Released(r, v) == Released(s, v);
        }
    }
    QueuesKept(s, r);
  }

  predicate Switching(step: Step) {
    step.LoadingMain? || step.LtMove? || step.Preempts? || step.Resumes?
  }

  lemma SwitchPrepares(s: Sys, a: Action)
    requires Safe(s, a) && Switching(a.step)
    ensures Moved(s, a).Some? && var m := Moved(s, a).value;
      m.to != EXIT && m.t in s.st.tcbs && s.st.tcbs[m.t].state != EXIT
    ensures var b := Prepared(s, a);
      && b.sems == s.st.sems && b.tcbs == s.st.tcbs && b.programs.Keys == s.st.programs.Keys
      && forall p :: p in b.programs ==> b.programs[p].wakeup == s.st.programs[p].wakeup
  {
  }

  lemma SwitchPcs(s: Sys, a: Action)
    requires Guard(s, a) && Safe(s, a) && Switching(a.step) && Moved(s, a).Some?
    requires var t := Moved(s, a).value.t;
      t.socket in s.pc ==> a.step.LtMove? || (t.socket == a.step.p && !s.pc[t.socket].Closing?)
    ensures forall p, k :: AtPc(s, p, Closing(k)) <==> AtPc(Apply(s, a), p, Closing(k))
    ensures var m := Moved(s, a).value;
      m.t in s.st.tcbs
        && ((m.to != EXEC && s.st.tcbs[m.t].state != EXEC) || forall k :: !AtPc(s, m.t.socket, Closing(k)))
  {
    hide Move;
  }

  /** Switching, admitting and loading a thread concern no waker. */
  lemma SwitchWaker(s: Sys, a: Action)
    requires OneWaker(s) && Guard(s, a) && Safe(s, a) && Switching(a.step) && Moved(s, a).Some?
    requires var t := Moved(s, a).value.t;
      t.socket in s.pc ==> a.step.LtMove? || (t.socket == a.step.p && !s.pc[t.socket].Closing?)
    requires !Is(s.st, Moved(s, a).value.t, BLOCKED)
    ensures OneWaker(Apply(s, a))
  {
    hide OneWaker, Guard, Safe, Apply, Moved, Prepared;
    var r := Apply(s, a);
    SwitchPrepares(s, a);
    SwitchPcs(s, a);
    MovedWent(s, a);
    NotBlockedTarget(s, a);
    ReleasedKept(s, r, Moved(s, a).value.t, Moved(s, a).value.to);
    JoinsKept(s, r);
    QueuesByKind(s, r);
    QueuesKept(s, r);
  }

  lemma NotBlockedTarget(s: Sys, a: Action)
    requires Safe(s, a) && Switching(a.step) && Moved(s, a).Some?
    ensures Moved(s, a).value.to != BLOCKED
  {
  }

  lemma StillWaker(s: Sys, a: Action)
    requires OneWaker(s) && Guard(s, a) && Safe(s, a) && s.pc.Keys == s.st.programs.Keys
    requires a.step.LtFetch? || a.step.LtCheck? || a.step.Closes? || a.step.WakeBegins? || a.step.WakeEnds?
    ensures OneWaker(Apply(s, a))
  {
    var r := Apply(s, a);
    JoinsKept(s, r);
    QueuesByKind(s, r);
    QueuesKept(s, r);
  }

  lemma NewWaker(s: Sys, a: Action)
    requires OneWaker(s) && Guard(s, a) && Safe(s, a) && s.pc.Keys == s.st.programs.Keys
    requires a.step.Connecting? || a.step.Creating?
    ensures OneWaker(Apply(s, a))
  {
    var r := Apply(s, a);
    forall w ensures Queue(r, w) == Queue(s, w) {
      match w
      case OnSem(_) =>
      case OnWakeup(_) =>
      case OnJoin(u) => assert u in s.st.tcbs ==> Released(r, u) == Released(s, u);
    }
    QueuesKept(s, r);
  }

  lemma ChooseQuiet(s: Sys, a: Action)
    requires Guard(s, a) && Safe(s, a) && a.step.Schedules?
    ensures var r := Apply(s, a);
      && r.st.sems == s.st.sems && r.st.programs == s.st.programs && r.st.tcbs.Keys == s.st.tcbs.Keys
      && (forall u :: u in s.st.tcbs ==>
         r.st.tcbs[u].joined == s.st.tcbs[u].joined && r.st.tcbs[u].state == s.st.tcbs[u].state)
      && forall p, k :: AtPc(s, p, Closing(k)) <==> AtPc(r, p, Closing(k))
  {
    hide Switch, Estimate, Bound, ChosenPos;
    ChooseBooked(s.st, a.step.p, a.now);
  }

  lemma ChooseWaker(s: Sys, a: Action)
    requires OneWaker(s) && Guard(s, a) && Safe(s, a) && a.step.Schedules?
    ensures OneWaker(Apply(s, a))
  {
    ChooseQuiet(s, a);
    hide OneWaker, Guard, Safe, Apply;
    var r := Apply(s, a);
    JoinsKept(s, r);
    QueuesByKind(s, r);
    QueuesKept(s, r);
  }

  lemma WaitWaker(s: Sys, a: Action)
    requires OneWaker(s) && Placed(s.st) && Guard(s, a) && Safe(s, a) && a.step.Waits?
    ensures OneWaker(Apply(s, a))
  {
    hide Placed, Move, MoveSafe;
    ExecIs(s.st, a.step.p);
    if WaitBlocks(s.st, a.step.p, a.step.tid, a.step.name) {
      BlockWaker(s, a);
    } else {
      JoinsKept(s, Apply(s, a));
      QueuesKept(s, Apply(s, a));
    }
  }

  lemma SignalsWaker(s: Sys, a: Action)
    requires OneWaker(s) && Guard(s, a) && Safe(s, a) && a.step.Signals?
    ensures OneWaker(Apply(s, a))
  {
    if SignalWakes(s.st, a.step.p, a.step.tid, a.step.name) {
      SignalWaker(s, a);
    } else {
      JoinsKept(s, Apply(s, a));
      QueuesKept(s, Apply(s, a));
    }
  }

  lemma JoinsWaker(s: Sys, a: Action)
    requires OneWaker(s) && Placed(s.st) && Guard(s, a) && Safe(s, a) && a.step.Joins?
    ensures OneWaker(Apply(s, a))
  {
    ExecIs(s.st, a.step.p);
    if Is(s.st, Id(a.step.p, a.step.tid), EXIT) {
      JoinsKept(s, Apply(s, a));
      QueuesByKind(s, Apply(s, a));
      QueuesKept(s, Apply(s, a));
    } else {
      JoinWaker(s, a);
    }
  }

  /** The thread switched is not BLOCKED, and its program is not closing one. */
  lemma SwitchTarget(s: Sys, a: Action)
    requires Placed(s.st) && Phases(s) && Guard(s, a) && Safe(s, a)
    requires Switching(a.step)
    ensures Moved(s, a).Some? && !Is(s.st, Moved(s, a).value.t, BLOCKED)
    ensures var t := Moved(s, a).value.t;
      t.socket in s.pc ==> a.step.LtMove? || (t.socket == a.step.p && !s.pc[t.socket].Closing?)
  {
    hide Placed;
    match a.step
    case Preempts(p) => ExecIs(s.st, p);
    case Resumes(p) => assert PhaseOk(s.st, s.pc[p], p);
    case LoadingMain(p) => assert PhaseOk(s.st, s.pc[p], p);
    case LtMove =>
  }

  lemma SwitchesWaker(s: Sys, a: Action)
    requires OneWaker(s) && Placed(s.st) && Phases(s) && Guard(s, a) && Safe(s, a)
    requires Switching(a.step)
    ensures OneWaker(Apply(s, a))
  {
    hide OneWaker, Placed, Phases, Guard, Safe, Apply, Moved;
    SwitchTarget(s, a);
    SwitchWaker(s, a);
  }

  lemma EndsWaker(s: Sys, a: Action)
    requires OneWaker(s) && Placed(s.st) && Phases(s) && Guard(s, a) && Safe(s, a)
    requires a.step.Unjoins? || a.step.Finishes?
    ensures OneWaker(Apply(s, a))
  {
    ExecIsOnly(s.st, a.step.p);
    if a.step.Unjoins? {
      UnjoinWaker(s, a);
    } else {
      assert PhaseOk(s.st, s.pc[a.step.p], a.step.p);
      FinishWaker(s, a);
    }
  }

  /** Every step keeps every blocked thread under exactly one waker. */
  lemma OneWakerKept(s: Sys, a: Action)
    requires OneWaker(s) && Placed(s.st) && Counted(s.st) && Phases(s) && Guard(s, a) && Safe(s, a)
    ensures OneWaker(Apply(s, a))
  {
    match a.step
    case Waits(_, _, _) => WaitWaker(s, a);
    case Signals(_, _, _) => SignalsWaker(s, a);
    case Joins(_, _) => JoinsWaker(s, a);
    case Unjoins(_) => EndsWaker(s, a);
    case Finishes(_) => EndsWaker(s, a);
    case WakeNext(_) => WakeWaker(s, a);
    case Preempts(_) => SwitchesWaker(s, a);
    case Resumes(_) => SwitchesWaker(s, a);
    case LoadingMain(_) => SwitchesWaker(s, a);
    case LtMove => SwitchesWaker(s, a);
    case Schedules(_) => ChooseWaker(s, a);
    case Connecting(_) => NewWaker(s, a);
    case Creating(_, _) => NewWaker(s, a);
    case _ => StillWaker(s, a);
  }
}
