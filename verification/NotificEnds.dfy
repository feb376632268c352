/**
How waits end (`notification.c`, `timer.c`): what each step does to the thread it is about, and that a
wait with a timeout keeps it until somebody has ended the wait.
*/
module NotificEnds {
  import opened Lists
  import opened NotificModel
  import opened NotificProof

  /** `r` is `q`, apart from the locks. */
  ghost predicate Becomes(r: Sys, q: Sys) {
    r == q.(nlock := r.nlock, qlock := r.qlock, slock := r.slock)
  }

  /** Thread `u` has left the waiting list of `n` and is ready; its wait has ended. */
  ghost function Ended(s: Sys, u: int, n: int): Sys
    requires Shaped(s) && 0 <= u < |s.pc| && 0 <= n < |s.waiters|
  {
    s.(pc := s.pc[u := Idle], waiters := s.waiters[n := Without(s.waiters[n], u)],
      ended := s.ended[u := s.ended[u] + 1])
  }

  /** A thread leaves a waiting list and no other thread does. */
  lemma LeavesList(s: Sys, u: int, n: int)
    requires Inv(s) && 0 <= u < |s.pc| && 0 <= n < |s.waiters| && WaitsOn(s.pc[u]) == n
    ensures u in s.waiters[n] && NoDup(s.waiters[n])
    ensures forall x :: x in Without(s.waiters[n], u) <==> x in s.waiters[n] && x != u
  {
    hide Locks, Sleeping, Expiring, Waking, Balanced, EndsOnce, Without, NoDup;
    WithoutIs(s.waiters[n], u);
  }

  // ---- wait_notific ----

  /** A wait takes a pending signal; without one it joins the end of the waiting list, or returns at once if
  it is not to block. */
  lemma WaitDecides(s: Sys, t: int, k: int)
    requires Inv(s) && Can(s, WaitOn(t, k)) && s.pc[t].W1?
    ensures var p, r := s.pc[t], Do(s, WaitOn(t, k)); var n := p.n;
      && 0 <= n < |s.pending| == |s.success| == |s.waiters| && |s.begun| == |s.pc|
      && (s.pending[n] > 0 ==>
         Becomes(r, s.(pc := s.pc[t := Idle], pending := s.pending[n := s.pending[n] - 1],
           success := s.success[n := s.success[n] + 1])))
      && (s.pending[n] == 0 && p.block ==>
         Becomes(r, s.(pc := s.pc[t := W2(n, p.timed, p.cpu)], waiters := s.waiters[n := s.waiters[n] + [t]],
           begun := s.begun[t := s.begun[t] + 1])))
      && (s.pending[n] == 0 && !p.block ==> Becomes(r, s.(pc := s.pc[t := Idle])))
  {
    hide Locks, Waiting, Sleeping, Expiring, Waking, Balanced, EndsOnce, CanGo, Relock;
  }

  /** A wait with a timeout joins the sleep list of its CPU and one without does not; then it blocks. */
  lemma WaitBlocks(s: Sys, t: int, k: int)
    requires Inv(s) && Can(s, WaitOn(t, k)) && !s.pc[t].W1?
    ensures var p, r := s.pc[t], Do(s, WaitOn(t, k)); var n := p.n;
      && (p.W2? && p.timed ==>
         && 0 <= p.cpu < |s.sleepers| && 0 <= k <= |s.sleepers[p.cpu]| && |s.cb| == |s.pend| == |s.cpu| == |s.pc|
         && var l := s.sleepers[p.cpu];
         Becomes(r, s.(pc := s.pc[t := W3(n, p.cpu)], sleepers := s.sleepers[p.cpu := l[..k] + [t] + l[k..]],
           cb := s.cb[t := true], pend := s.pend[t := n], cpu := s.cpu[t := p.cpu])))
      && (p.W2? && !p.timed ==> Becomes(r, s.(pc := s.pc[t := W4(n)])))
      && (p.W3? ==> Becomes(r, s.(pc := s.pc[t := W4(n)])))
      && (p.W4? ==> Becomes(r, s.(pc := s.pc[t := Blocked(n)])))
  {
    hide Locks, Waiting, Sleeping, Expiring, Waking, Balanced, EndsOnce, CanGo, Relock;
  }

  // ---- signal_notific ----

  /** A signal is kept while signals are pending or nobody waits; otherwise it goes for the first waiter, and
  gives up, changing nothing, only when somebody else holds that thread's lock. */
  lemma SignalDecides(s: Sys, t: int)
    requires Inv(s) && Can(s, SignalOn(t)) && s.pc[t].S1?
    ensures var n, r := s.pc[t].n, Do(s, SignalOn(t));
      && 0 <= n < |s.pending| == |s.waiters| == |s.accepted| == |s.wraps|
      && (s.pending[n] > 0 || s.waiters[n] == [] ==>
         Becomes(r, s.(pc := s.pc[t := Idle], pending := s.pending[n := (s.pending[n] + 1) % U32],
           accepted := s.accepted[n := s.accepted[n] + 1], wraps := r.wraps)))
      && (s.pending[n] == 0 && s.waiters[n] != [] ==>
         var u := s.waiters[n][0];
         && 0 <= u < |s.qlock|
         && (s.qlock[u] == Nobody ==> Becomes(r, s.(pc := s.pc[t := S2(n, u)])))
         && (s.qlock[u] != Nobody ==> Becomes(r, s.(pc := s.pc[t := Idle]))))
  {
    hide Locks, Sleeping, Expiring, Waking, Balanced, EndsOnce, Relock;
    if s.waiters[s.pc[t].n] != [] { FirstThread(s, s.pc[t].n); }
  }

  /** A signaller takes the timeout of its waiter away first, unless a timer holds the sleep list; then it
  gives up, changing nothing. */
  lemma SignalDisarms(s: Sys, t: int)
    requires Inv(s) && Can(s, SignalOn(t)) && (s.pc[t].S2? || s.pc[t].S3?)
    ensures var n, u, r := s.pc[t].n, s.pc[t].u, Do(s, SignalOn(t));
      && 0 <= u < |s.cb| == |s.cpu| && 0 <= s.cpu[u] < |s.sleepers| == |s.slock|
      && var c := s.cpu[u];
      && (s.pc[t].S2? && !s.cb[u] ==> Becomes(r, s.(pc := s.pc[t := S4(n, u)])))
      && (s.pc[t].S2? && s.cb[u] && s.slock[c] == Nobody ==>
         Becomes(r, s.(pc := s.pc[t := S3(n, u, c)], cb := s.cb[u := false],
           sleepers := s.sleepers[c := Without(s.sleepers[c], u)])))
      && (s.pc[t].S2? && s.cb[u] && s.slock[c] != Nobody ==> Becomes(r, s.(pc := s.pc[t := Idle])))
      && (s.pc[t].S3? ==> Becomes(r, s.(pc := s.pc[t := S4(n, u)])))
  {
    hide Locks, Waiting, Sleeping, Expiring, Waking, Balanced, EndsOnce, Relock, Without;
    assert PcOk(s.pc[t], |s.pc|, |s.pending|, |s.tpc|);
  }

  /** Then it ends the wait of that thread, with success. */
  lemma SignalWakes(s: Sys, t: int)
    requires Inv(s) && Can(s, SignalOn(t)) && s.pc[t].S4?
    ensures var n, u, r := s.pc[t].n, s.pc[t].u, Do(s, SignalOn(t));
      && 0 <= u < |s.pc| && 0 <= n < |s.waiters| == |s.accepted| == |s.success|
      && s.pc[u] == Blocked(n) && s.waiters[n] != [] && s.waiters[n][0] == u
      && Becomes(r, Ended(s, u, n).(pc := s.pc[u := Idle][t := Idle], accepted := s.accepted[n := s.accepted[n] + 1],
         success := s.success[n := s.success[n] + 1]))
  {
    hide Locks, Waiting, Sleeping, Expiring, Balanced, EndsOnce, Relock, Without, CanGo;
    TargetBlocked(s, t);
  }

  // ---- the timer interrupt ----

  /** A timer takes the first sleeper off its list, and afterwards forgets its timeout. */
  lemma TimerFires(s: Sys, c: int, done: bool)
    requires Inv(s) && Can(s, TimerOn(c, done)) && !s.tpc[c].T3?
    ensures var p, r := s.tpc[c], Do(s, TimerOn(c, done));
      && 0 <= c < |s.sleepers|
      && (p.T1? && (done || s.sleepers[c] == []) ==> Becomes(r, s.(tpc := s.tpc[c := T0])))
      && (p.T1? && !done && s.sleepers[c] != [] ==>
         Becomes(r, s.(tpc := s.tpc[c := T2(s.sleepers[c][0], p.now)],
           sleepers := s.sleepers[c := s.sleepers[c][1..]])))
      && (p.T2? ==> 0 <= p.u < |s.pend| && Becomes(r, s.(tpc := s.tpc[c := T3(p.u, s.pend[p.u], p.now)])))
      && (p.T4? ==> 0 <= p.u < |s.cb| && Becomes(r, s.(tpc := s.tpc[c := T1(p.now)], cb := s.cb[p.u := false])))
  {
    hide Locks, Waiting, Sleeping, Expiring, Waking, Balanced, EndsOnce, CanGoTimer, Relock;
    assert TpcOk(s.tpc[c], |s.pc|, |s.pending|);
  }

  /** The callback ends the wait of its thread. */
  lemma TimeoutEnds(s: Sys, c: int, done: bool)
    requires Inv(s) && Can(s, TimerOn(c, done)) && s.tpc[c].T3?
    ensures var u, n, r := s.tpc[c].u, s.tpc[c].n, Do(s, TimerOn(c, done));
      && 0 <= u < |s.pc| && 0 <= n < |s.waiters| && s.pc[u] == Blocked(n)
      && Becomes(r, Ended(s, u, n).(tpc := s.tpc[c := T4(u, s.tpc[c].now)]))
  {
    hide Locks, Waiting, Sleeping, Expiring, Waking, Balanced, EndsOnce, CanGoTimer, Relock, Without;
    CallbackFindsWaiting(s, c);
  }

  lemma BeginMeans(s: Sys, e: Step)
    requires Inv(s) && Can(s, e)
    ensures e.BeginWait? ==> Becomes(Do(s, e), s.(pc := s.pc[e.t := W1(e.n, e.block, e.timed, e.cpu)]))
    ensures e.BeginSignal? ==> Becomes(Do(s, e), s.(pc := s.pc[e.t := S1(e.n)]))
    ensures e.BeginTimer? ==> Becomes(Do(s, e), s.(tpc := s.tpc[e.c := T1(e.now)]))
  {
    hide Locks, Waiting, Sleeping, Expiring, Waking, Balanced, EndsOnce, CanGo, CanGoTimer, Relock;
  }

  // ---- a timeout is kept until the wait has ended ----

  /** A signaller has taken the timeout of thread `t` away and is about to end its wait. */
  ghost predicate Disarmed(s: Sys, t: int) {
    exists x :: 0 <= x < |s.pc| && (s.pc[x].S3? || s.pc[x].S4?) && s.pc[x].u == t
  }

  /** The present wait of thread `t` has a timeout iff `b`, and keeps it. */
  ghost predicate Armed(s: Sys, t: int, b: bool)
    requires Shaped(s) && 0 <= t < |s.pc|
  {
    var p := s.pc[t];
    && (p.W1? || p.W2? ==> p.timed == b)
    && (p.W3? ==> b && s.cb[t])
    && (p.W4? || p.Blocked? ==> (b ==> s.cb[t] || Disarmed(s, t)) && (s.cb[t] ==> b))
  }

  /** A timer that has run its callback has ended the wait. */
  ghost predicate CalledBack(s: Sys) {
    forall c :: 0 <= c < |s.tpc| && s.tpc[c].T4? ==> 0 <= s.tpc[c].u < |s.pc| && WaitsOn(s.pc[s.tpc[c].u]) == -1
  }

  ghost function Timed(e: Step, t: int, b: bool): bool {
    if e.BeginWait? && e.t == t then e.timed else b
  }

  lemma DisarmedStays(s: Sys, r: Sys, t: int, x: int, p: Pc)
    requires Disarmed(s, t) && 0 <= x < |s.pc| && r.pc == s.pc[x := p]
    requires (s.pc[x].S3? || s.pc[x].S4?) && s.pc[x].u == t ==> (p.S3? || p.S4?) && p.u == t
    ensures Disarmed(r, t)
  {
    var y :| 0 <= y < |s.pc| && (s.pc[y].S3? || s.pc[y].S4?) && s.pc[y].u == t;
    assert r.pc[y].S3? || r.pc[y].S4?;
  }

  /** A step of thread `x` that does not touch the timeout or the wait of thread `t`. */
  lemma ArmedApart(s: Sys, r: Sys, t: int, b: bool, x: int, p: Pc)
    requires Shaped(s) && Shaped(r) && 0 <= t < |s.pc| && Armed(s, t, b)
    requires 0 <= x < |s.pc| && x != t && r.pc == s.pc[x := p] && r.cb[t] == s.cb[t]
    requires (s.pc[x].S3? || s.pc[x].S4?) && s.pc[x].u == t ==> (p.S3? || p.S4?) && p.u == t
    ensures Armed(r, t, b)
  {
    hide Shaped, Disarmed;
    Lengths(s);
    Lengths(r);
    if Disarmed(s, t) { DisarmedStays(s, r, t, x, p); }
  }

  lemma ArmedWait(s: Sys, t: int, k: int, x: int, b: bool)
    requires Inv(s) && Can(s, WaitOn(x, k)) && 0 <= t < |s.pc| && Armed(s, t, b)
    ensures Inv(Do(s, WaitOn(x, k))) && |Do(s, WaitOn(x, k)).pc| == |s.pc| && Armed(Do(s, WaitOn(x, k)), t, b)
  {
    hide Locks, Waiting, Sleeping, Expiring, Waking, Balanced, EndsOnce, CanGo, Do, Disarmed;
    StepKeeps(s, WaitOn(x, k));
    if s.pc[x].W1? { WaitDecides(s, x, k); } else { WaitBlocks(s, x, k); }
    var r := Do(s, WaitOn(x, k));
    if x != t {
      ArmedApart(s, r, t, b, x, r.pc[x]);
    } else if s.pc[t].W2? && !s.pc[t].timed {
      NoTimeoutYet(s, t);
    } else if s.pc[t].W4? {
      if Disarmed(s, t) { DisarmedStays(s, r, t, t, Blocked(s.pc[t].n)); }
    }
  }

  /** A thread that has just joined a waiting list has no timeout. */
  lemma NoTimeoutYet(s: Sys, t: int)
    requires Inv(s) && 0 <= t < |s.pc| && s.pc[t].W2?
    ensures !s.cb[t]
  {
    hide Table, Waiting, Expiring, Waking, Balanced, EndsOnce, NoDup;
    ThreadHolds(s, t);
  }

  lemma ArmedSignal(s: Sys, t: int, x: int, b: bool)
    requires Inv(s) && Can(s, SignalOn(x)) && 0 <= t < |s.pc| && Armed(s, t, b)
    ensures Inv(Do(s, SignalOn(x))) && |Do(s, SignalOn(x)).pc| == |s.pc| && Armed(Do(s, SignalOn(x)), t, b)
  {
    hide Locks, Waiting, Sleeping, Expiring, Waking, Balanced, EndsOnce, CanGo, Do, Disarmed, Without;
    StepKeeps(s, SignalOn(x));
    var r := Do(s, SignalOn(x));
    if s.pc[x].S4? {
      SignalWakes(s, x);
      if t != x && t != s.pc[x].u && Disarmed(s, t) { StillDisarmed(s, r, t, x); }
    } else if s.pc[x].S1? {
      SignalDecides(s, x);
      if t != x { ArmedApart(s, r, t, b, x, r.pc[x]); }
    } else {
      SignalDisarms(s, x);
      if t == s.pc[x].u {
        TargetBlocked(s, x);
        if r.pc[x].S3? || r.pc[x].S4? { Disarms(r, t, x); } else { ArmedApart(s, r, t, b, x, r.pc[x]); }
      } else if t != x {
        ArmedApart(s, r, t, b, x, r.pc[x]);
      }
    }
  }

  lemma Disarms(s: Sys, t: int, x: int)
    requires 0 <= x < |s.pc| && (s.pc[x].S3? || s.pc[x].S4?) && s.pc[x].u == t
    ensures Disarmed(s, t)
  {
  }

  lemma StillDisarmed(s: Sys, r: Sys, t: int, x: int)
    requires Disarmed(s, t) && 0 <= x < |s.pc| && s.pc[x].S4? && s.pc[x].u != t && 0 <= s.pc[x].u < |s.pc|
    requires s.pc[s.pc[x].u].Blocked? && r.pc == s.pc[s.pc[x].u := Idle][x := Idle]
    ensures Disarmed(r, t)
  {
    var y :| 0 <= y < |s.pc| && (s.pc[y].S3? || s.pc[y].S4?) && s.pc[y].u == t;
    assert r.pc[y] == s.pc[y];
  }

  lemma ArmedTimer(s: Sys, t: int, c: int, done: bool, b: bool)
    requires Inv(s) && Can(s, TimerOn(c, done)) && 0 <= t < |s.pc| && Armed(s, t, b) && CalledBack(s)
    ensures Inv(Do(s, TimerOn(c, done))) && |Do(s, TimerOn(c, done)).pc| == |s.pc|
    ensures Armed(Do(s, TimerOn(c, done)), t, b)
  {
    hide Locks, Waiting, Sleeping, Expiring, Waking, Balanced, EndsOnce, CanGoTimer, Do, Disarmed, Without;
    StepKeeps(s, TimerOn(c, done));
    var r := Do(s, TimerOn(c, done));
    if s.tpc[c].T3? {
      TimeoutEnds(s, c, done);
      if t != s.tpc[c].u { ArmedApart(s, r, t, b, s.tpc[c].u, Idle); }
    } else {
      TimerFires(s, c, done);
      if Disarmed(s, t) { DisarmedStays(s, r, t, t, s.pc[t]); }
    }
  }

  lemma ArmedStep(s: Sys, e: Step, t: int, b: bool)
    requires Inv(s) && Can(s, e) && 0 <= t < |s.pc| && Armed(s, t, b) && CalledBack(s)
    ensures Inv(Do(s, e)) && |Do(s, e).pc| == |s.pc| && Armed(Do(s, e), t, Timed(e, t, b))
  {
    hide Locks, Waiting, Sleeping, Expiring, Waking, Balanced, EndsOnce, CanGo, CanGoTimer, Do, Disarmed,
      WaitStep, TimerStep;
    StepKeeps(s, e);
    BeginMeans(s, e);
    match e {
      case BeginWait(x, _, _, _, _) => if x != t { ArmedApart(s, Do(s, e), t, b, x, Do(s, e).pc[x]); }
      case BeginSignal(x, _) => if x != t { ArmedApart(s, Do(s, e), t, b, x, Do(s, e).pc[x]); }
      case BeginTimer(_, _) => if Disarmed(s, t) { DisarmedStays(s, Do(s, e), t, t, s.pc[t]); }
      case WaitOn(x, k) => ArmedWait(s, t, k, x, b);
      case SignalOn(x) => ArmedSignal(s, t, x, b);
      case TimerOn(c, done) => ArmedTimer(s, t, c, done, b);
    }
  }

  /** Thread `x` goes to point `p`, and does not begin to wait while a timer has called it back. */
  lemma CalledBackMove(s: Sys, r: Sys, x: int, p: Pc)
    requires CalledBack(s) && 0 <= x < |s.pc| && r.pc == s.pc[x := p] && r.tpc == s.tpc
    requires WaitsOn(p) == -1 || WaitsOn(s.pc[x]) != -1 ||
      forall c :: 0 <= c < |s.tpc| && s.tpc[c].T4? ==> s.tpc[c].u != x
    ensures CalledBack(r) && |r.pc| == |s.pc|
  {
  }

  lemma CalledBackWait(s: Sys, x: int, k: int)
    requires Inv(s) && Can(s, WaitOn(x, k)) && CalledBack(s)
    ensures CalledBack(Do(s, WaitOn(x, k))) && |Do(s, WaitOn(x, k)).pc| == |s.pc|
  {
    hide Waiting, Sleeping, Expiring, Waking, Balanced, EndsOnce, Table, CalledBack;
    var r := Do(s, WaitOn(x, k));
    if s.pc[x].W1? {
      WaitDecides(s, x, k);
      forall c | 0 <= c < |s.tpc| && s.tpc[c].T4? && r.pc[x].W2? ensures s.tpc[c].u != x { TimerHolds(s, c); }
    } else {
      WaitBlocks(s, x, k);
    }
    CalledBackMove(s, r, x, r.pc[x]);
  }

  lemma CalledBackSignal(s: Sys, x: int)
    requires Inv(s) && Can(s, SignalOn(x)) && CalledBack(s)
    ensures CalledBack(Do(s, SignalOn(x))) && |Do(s, SignalOn(x)).pc| == |s.pc|
  {
    hide Locks, Waiting, Sleeping, Expiring, Waking, Balanced, EndsOnce, CanGo, CalledBack, SignalStep;
    var r := Do(s, SignalOn(x));
    if s.pc[x].S4? {
      SignalWakes(s, x);
      var q := s.(pc := s.pc[s.pc[x].u := Idle]);
      CalledBackMove(s, q, s.pc[x].u, Idle);
      CalledBackMove(q, r, x, Idle);
    } else {
      if s.pc[x].S1? { SignalDecides(s, x); } else { SignalDisarms(s, x); }
      CalledBackMove(s, r, x, r.pc[x]);
    }
  }

  lemma CalledBackTimer(s: Sys, c: int, done: bool)
    requires Inv(s) && Can(s, TimerOn(c, done)) && CalledBack(s)
    ensures CalledBack(Do(s, TimerOn(c, done))) && |Do(s, TimerOn(c, done)).pc| == |s.pc|
  {
    hide Locks, Waiting, Sleeping, Expiring, Waking, Balanced, EndsOnce, CanGoTimer, TimerStep;
    if s.tpc[c].T3? { TimeoutEnds(s, c, done); } else { TimerFires(s, c, done); }
  }

  lemma CalledBackStep(s: Sys, e: Step)
    requires Inv(s) && Can(s, e) && CalledBack(s)
    ensures CalledBack(Do(s, e)) && |Do(s, e).pc| == |s.pc|
  {
    hide Locks, Waiting, Sleeping, Expiring, Waking, Balanced, EndsOnce, CanGo, CanGoTimer, Do, Without;
    BeginMeans(s, e);
    match e {
      case WaitOn(x, k) => CalledBackWait(s, x, k);
      case SignalOn(x) => CalledBackSignal(s, x);
      case TimerOn(c, done) => CalledBackTimer(s, c, done);
      case BeginWait(x, _, _, _, _) => CalledBackMove(s, Do(s, e), x, Do(s, e).pc[x]);
      case BeginSignal(x, _) => CalledBackMove(s, Do(s, e), x, Do(s, e).pc[x]);
      case BeginTimer(_, _) =>
    }
  }

  /** The present or last wait of thread `t` was begun with a timeout. */
  ghost predicate TimedWait(es: seq<Step>, t: int) {
    es != [] && Timed(es[|es| - 1], t, TimedWait(es[..|es| - 1], t))
  }

  lemma {:induction false} RunArmed(s: Sys, es: seq<Step>, r: Sys)
    requires Start(s) && Reaches(s, es, r)
    ensures Inv(r) && |r.pc| == |s.pc| && CalledBack(r)
    ensures forall t :: 0 <= t < |r.pc| ==> Armed(r, t, TimedWait(es, t))
    decreases |es|
  {
    hide InvBut, Can, Do, Armed, CalledBack, Shaped;
    if es == [] {
      StartInv(s);
      StartArmed(s);
    } else {
      var e := es[|es| - 1];
      var q :| Reaches(s, es[..|es| - 1], q) && Shaped(q) && Can(q, e) && r == Do(q, e);
      RunArmed(s, es[..|es| - 1], q);
      CalledBackStep(q, e);
      StepKeeps(q, e);
      Promises(r);
      forall t | 0 <= t < |q.pc| ensures |r.pc| == |q.pc| && Armed(r, t, TimedWait(es, t)) {
        ArmedStep(q, e, t, TimedWait(es[..|es| - 1], t));
      }
    }
  }

  lemma StartArmed(s: Sys)
    requires Start(s)
    ensures CalledBack(s) && forall t :: 0 <= t < |s.pc| ==> Armed(s, t, false)
  {
  }

  /** In every run, a thread blocked in a wait that was begun with a timeout is on the sleep list of its CPU, or
  in the hands of a timer that ends the wait, or of a signaller that does; one in a wait without a timeout
  is on no sleep list and no timer has it. */
  lemma TimeoutKept(s: Sys, es: seq<Step>, r: Sys, t: int)
    requires Start(s) && Reaches(s, es, r) && 0 <= t < |r.pc| && r.pc[t].Blocked?
    ensures Shaped(r)
    ensures TimedWait(es, t) ==>
      t in r.sleepers[r.cpu[t]] || Disarmed(r, t) || exists c :: 0 <= c < |r.tpc| && Fires(r.tpc[c], t)
    ensures !TimedWait(es, t) ==>
      && (forall c :: 0 <= c < |r.sleepers| ==> t !in r.sleepers[c])
      && (forall c :: 0 <= c < |r.tpc| ==> !Fires(r.tpc[c], t))
  {
    hide Reaches, Start, Waiting, Expiring, Waking, Balanced, EndsOnce, Table, Disarmed, NoDup;
    RunArmed(s, es, r);
    assert Armed(r, t, TimedWait(es, t));
    forall c | 0 <= c < |r.tpc| && Fires(r.tpc[c], t) ensures r.qlock[t] == Tim(c) { TimerHolds(r, c); }
    if r.qlock[t].Tim? { HoldingTimer(r, t); }
  }

  /** A timer is about to end the wait of thread `t`. */
  predicate Fires(p: Tpc, t: int) { (p.T2? || p.T3?) && p.u == t }

  lemma HoldingTimer(s: Sys, t: int)
    requires Inv(s) && CalledBack(s) && 0 <= t < |s.pc| && s.qlock[t].Tim? && s.pc[t].Blocked?
    ensures 0 <= s.qlock[t].c < |s.tpc| && Fires(s.tpc[s.qlock[t].c], t)
  {
    hide Waiting, Expiring, Waking, Balanced, EndsOnce, Sleeping;
    assert TimerQs(s.tpc)[s.qlock[t].c] == t;
  }
}
