/** Every step of the notification protocol keeps its invariant, in every run. */
module NotificProof {
  import opened Lists
  import opened NotificModel

  // ---- locks ----

  lemma TableMove(lock: seq<Actor>, heldT: seq<int>, heldC: seq<int>, t: int, to: int)
    requires Table(lock, heldT, heldC) && 0 <= t < |heldT| && Free(lock, heldT[t], to)
    ensures Table(Relock(lock, heldT[t], to, Thr(t)), heldT[t := to], heldC)
    ensures |Relock(lock, heldT[t], to, Thr(t))| == |lock|
    ensures forall u :: 0 <= u < |lock| ==> (Relock(lock, heldT[t], to, Thr(t))[u].Tim? <==> lock[u].Tim?)
  {
  }

  lemma TableMoveTimer(lock: seq<Actor>, heldT: seq<int>, heldC: seq<int>, c: int, to: int)
    requires Table(lock, heldT, heldC) && 0 <= c < |heldC| && Free(lock, heldC[c], to)
    ensures Table(Relock(lock, heldC[c], to, Tim(c)), heldT, heldC[c := to])
    ensures |Relock(lock, heldC[c], to, Tim(c))| == |lock|
  {
  }

  lemma GoLocks(s: Sys, t: int, p: Pc)
    requires Locks(s) && 0 <= t < |s.pc| && CanGo(s, t, p)
    ensures Locks(Go(s, t, p))
    ensures |Go(s, t, p).nlock| == |s.nlock| && |Go(s, t, p).qlock| == |s.qlock| && |Go(s, t, p).slock| == |s.slock|
    ensures forall u :: 0 <= u < |s.qlock| ==> (Go(s, t, p).qlock[u].Tim? <==> s.qlock[u].Tim?)
  {
    hide Table, Relock, Free, HeldN, HeldQ, HeldS;
    TableMove(s.nlock, HeldNs(s.pc), TimerNs(s.tpc), t, HeldN(p));
    TableMove(s.qlock, HeldQs(s.pc), TimerQs(s.tpc), t, HeldQ(t, p));
    TableMove(s.slock, HeldSs(s.pc), TimerSs(s.tpc), t, HeldS(p));
    assert HeldNs(s.pc[t := p]) == HeldNs(s.pc)[t := HeldN(p)];
    assert HeldQs(s.pc[t := p]) == HeldQs(s.pc)[t := HeldQ(t, p)];
    assert HeldSs(s.pc[t := p]) == HeldSs(s.pc)[t := HeldS(p)];
  }

  lemma GoTimerLocks(s: Sys, c: int, p: Tpc)
    requires Locks(s) && 0 <= c < |s.tpc| && CanGoTimer(s, c, p)
    ensures Locks(GoTimer(s, c, p))
    ensures |GoTimer(s, c, p).nlock| == |s.nlock| && |GoTimer(s, c, p).qlock| == |s.qlock|
      && |GoTimer(s, c, p).slock| == |s.slock|
  {
    hide Table, Relock, Free, TimerN, TimerQ, TimerS;
    TableMoveTimer(s.nlock, HeldNs(s.pc), TimerNs(s.tpc), c, TimerN(p));
    TableMoveTimer(s.qlock, HeldQs(s.pc), TimerQs(s.tpc), c, TimerQ(p));
    TableMoveTimer(s.slock, HeldSs(s.pc), TimerSs(s.tpc), c, TimerS(c, p));
    assert TimerNs(s.tpc[c := p]) == TimerNs(s.tpc)[c := TimerN(p)];
    assert TimerQs(s.tpc[c := p]) == TimerQs(s.tpc)[c := TimerQ(p)];
    assert TimerSs(s.tpc[c := p]) == TimerSs(s.tpc)[c := TimerS(c, p)];
  }

  /** What a thread holds is its own. */
  lemma ThreadHolds(s: Sys, t: int)
    requires Locks(s) && 0 <= t < |s.pc|
    ensures HeldN(s.pc[t]) == -1 || (0 <= HeldN(s.pc[t]) < |s.nlock| && s.nlock[HeldN(s.pc[t])] == Thr(t))
    ensures HeldQ(t, s.pc[t]) == -1 || (0 <= HeldQ(t, s.pc[t]) < |s.qlock| && s.qlock[HeldQ(t, s.pc[t])] == Thr(t))
  {
    assert HeldNs(s.pc)[t] == HeldN(s.pc[t]) && HeldQs(s.pc)[t] == HeldQ(t, s.pc[t]);
  }

  lemma TimerHolds(s: Sys, c: int)
    requires Locks(s) && 0 <= c < |s.tpc|
    ensures TimerN(s.tpc[c]) == -1 || (0 <= TimerN(s.tpc[c]) < |s.nlock| && s.nlock[TimerN(s.tpc[c])] == Tim(c))
    ensures TimerQ(s.tpc[c]) == -1 || (0 <= TimerQ(s.tpc[c]) < |s.qlock| && s.qlock[TimerQ(s.tpc[c])] == Tim(c))
  {
    assert TimerNs(s.tpc)[c] == TimerN(s.tpc[c]) && TimerQs(s.tpc)[c] == TimerQ(s.tpc[c]);
  }

  // ---- waiting lists ----

  lemma WaitSame(pc: seq<Pc>, waiters: seq<seq<int>>, t: int, p: Pc)
    requires Waiting(pc, waiters) && 0 <= t < |pc| && WaitsOn(p) == WaitsOn(pc[t])
    ensures Waiting(pc[t := p], waiters)
  {
    hide WaitsOn, NoDup;
  }

  lemma WaitJoin(pc: seq<Pc>, waiters: seq<seq<int>>, t: int, p: Pc, n: int)
    requires Waiting(pc, waiters) && 0 <= t < |pc| && WaitsOn(pc[t]) == -1 && WaitsOn(p) == n && 0 <= n < |waiters|
    ensures Waiting(pc[t := p], waiters[n := waiters[n] + [t]])
  {
    hide WaitsOn, NoDup;
    NoDupSnoc(waiters[n], t);
  }

  lemma WaitLeave(pc: seq<Pc>, waiters: seq<seq<int>>, u: int, p: Pc, n: int)
    requires Waiting(pc, waiters) && 0 <= u < |pc| && WaitsOn(pc[u]) == n && WaitsOn(p) == -1 && 0 <= n < |waiters|
    ensures Waiting(pc[u := p], waiters[n := Without(waiters[n], u)])
  {
    hide WaitsOn, NoDup, Without;
    WithoutIs(waiters[n], u);
  }

  // ---- sleep lists ----

  ghost predicate SameTims(qlock: seq<Actor>, qlock': seq<Actor>) {
    |qlock| == |qlock'| && forall u :: 0 <= u < |qlock| ==> (qlock'[u].Tim? <==> qlock[u].Tim?)
  }

  ghost predicate Asleep(sleepers: seq<seq<int>>, t: int) {
    exists c :: 0 <= c < |sleepers| && t in sleepers[c]
  }

  lemma NotAsleep(s: Sys, t: int)
    requires Shaped(s) && Sleeping(s.pc, s.sleepers, s.cb, s.pend, s.cpu, s.qlock) && 0 <= t < |s.pc|
    requires TimedOn(s.pc[t]) == -1 || !s.cb[t] || s.qlock[t].Tim?
    ensures !Asleep(s.sleepers, t)
  {
    hide NoDup;
  }

  lemma SleepMove(pc: seq<Pc>, sleepers: seq<seq<int>>, cb: seq<bool>, pend: seq<int>, cpu: seq<int>, qlock: seq<Actor>,
                  t: int, p: Pc, qlock': seq<Actor>)
    requires Sleeping(pc, sleepers, cb, pend, cpu, qlock) && 0 <= t < |pc| && SameTims(qlock, qlock')
    requires TimedOn(p) == TimedOn(pc[t]) || !Asleep(sleepers, t)
    ensures Sleeping(pc[t := p], sleepers, cb, pend, cpu, qlock')
  {
    hide NoDup, TimedOn;
    forall c | 0 <= c < |sleepers| ensures forall u <- sleepers[c] :: Sleeper(pc[t := p], cb, pend, cpu, qlock', c, u) {
      forall u <- sleepers[c] ensures Sleeper(pc[t := p], cb, pend, cpu, qlock', c, u) {
        assert Sleeper(pc, cb, pend, cpu, qlock, c, u);
      }
    }
  }

  lemma SleepInsert(pc: seq<Pc>, sleepers: seq<seq<int>>, cb: seq<bool>, pend: seq<int>, cpu: seq<int>,
    qlock: seq<Actor>,
                    t: int, p: Pc, c: int, k: int, qlock': seq<Actor>)
    requires Sleeping(pc, sleepers, cb, pend, cpu, qlock) && 0 <= t < |pc| && SameTims(qlock, qlock')
    requires !Asleep(sleepers, t) && 0 <= c < |sleepers| && 0 <= k <= |sleepers[c]| && TimedOn(p) >= 0 && !qlock[t].Tim?
    ensures Sleeping(pc[t := p], sleepers[c := sleepers[c][..k] + [t] + sleepers[c][k..]], cb[t := true],
      pend[t := TimedOn(p)], cpu[t := c], qlock')
  {
    hide NoDup, TimedOn;
    InsertIs(sleepers[c], k, t);
    var sl := sleepers[c := sleepers[c][..k] + [t] + sleepers[c][k..]];
    forall d, u | 0 <= d < |sl| && u in sl[d]
      ensures Sleeper(pc[t := p], cb[t := true], pend[t := TimedOn(p)], cpu[t := c], qlock', d, u)
    {
      if u != t { assert Sleeper(pc, cb, pend, cpu, qlock, d, u); }
    }
  }

  lemma SleepCut(pc: seq<Pc>, sleepers: seq<seq<int>>, cb: seq<bool>, pend: seq<int>, cpu: seq<int>, qlock: seq<Actor>,
    u: int)
    requires Sleeping(pc, sleepers, cb, pend, cpu, qlock) && 0 <= u < |pc| && cb[u] && !qlock[u].Tim?
      && 0 <= cpu[u] < |sleepers|
    ensures Sleeping(pc, sleepers[cpu[u] := Without(sleepers[cpu[u]], u)], cb[u := false], pend, cpu, qlock)
  {
    hide NoDup, TimedOn, Without;
    var c := cpu[u];
    WithoutIs(sleepers[c], u);
    var sl := sleepers[c := Without(sleepers[c], u)];
    forall d, x | 0 <= d < |sl| && x in sl[d] ensures Sleeper(pc, cb[u := false], pend, cpu, qlock, d, x) {
      assert Sleeper(pc, cb, pend, cpu, qlock, d, x);
    }
  }

  lemma SleepFire(pc: seq<Pc>, sleepers: seq<seq<int>>, cb: seq<bool>, pend: seq<int>, cpu: seq<int>, qlock: seq<Actor>,
    c: int, d: int)
    requires Sleeping(pc, sleepers, cb, pend, cpu, qlock) && 0 <= c < |sleepers| && sleepers[c] != []
    ensures 0 <= sleepers[c][0] < |pc| && Sleeper(pc, cb, pend, cpu, qlock, c, sleepers[c][0])
    ensures Sleeping(pc, sleepers[c := sleepers[c][1..]], cb, pend, cpu, qlock[sleepers[c][0] := Tim(d)])
  {
    hide NoDup, TimedOn;
    var u := sleepers[c][0];
    assert u in sleepers[c];
    NoDupTail(sleepers[c]);
    var sl := sleepers[c := sleepers[c][1..]];
    forall e, x | 0 <= e < |sl| && x in sl[e] ensures Sleeper(pc, cb, pend, cpu, qlock[u := Tim(d)], e, x) {
      assert Sleeper(pc, cb, pend, cpu, qlock, e, x);
    }
  }

  lemma SleepDone(pc: seq<Pc>, sleepers: seq<seq<int>>, cb: seq<bool>, pend: seq<int>, cpu: seq<int>, qlock: seq<Actor>,
    u: int)
    requires Sleeping(pc, sleepers, cb, pend, cpu, qlock) && 0 <= u < |pc| && qlock[u].Tim?
    ensures Sleeping(pc, sleepers, cb[u := false], pend, cpu, qlock[u := Nobody])
  {
    hide NoDup, TimedOn;
    forall d, x | 0 <= d < |sleepers| && x in sleepers[d]
      ensures Sleeper(pc, cb[u := false], pend, cpu, qlock[u := Nobody], d, x)
    {
      assert Sleeper(pc, cb, pend, cpu, qlock, d, x);
    }
  }

  // ---- a thread moves ----

  lemma ExpMove(tpc: seq<Tpc>, pc: seq<Pc>, pend: seq<int>, t: int, p: Pc, y: int)
    requires Expiring(tpc, pc, pend, y) && 0 <= t < |pc| && !pc[t].Blocked?
    ensures Expiring(tpc, pc[t := p], pend, y)
  {
  }

  lemma WakingMove(pc: seq<Pc>, waiters: seq<seq<int>>, cb: seq<bool>, t: int, p: Pc)
    requires Waking(pc, waiters, cb, t) && 0 <= t < |pc|
    requires Signalling(p) ==> First(waiters, p.n, p.u) && 0 <= p.u < |cb|
    requires p.S3? || p.S4? ==> !cb[p.u]
    ensures Waking(pc[t := p], waiters, cb, -1)
  {
  }

  lemma EndsMove(pc: seq<Pc>, begun: seq<nat>, ended: seq<nat>, t: int, p: Pc)
    requires EndsOnce(pc, begun, ended) && 0 <= t < |pc| && WaitsOn(p) == WaitsOn(pc[t])
    ensures EndsOnce(pc[t := p], begun, ended)
  {
  }

  lemma ShapedMove(s: Sys, t: int, p: Pc)
    requires Shaped(s) && Locks(s) && 0 <= t < |s.pc| && CanGo(s, t, p) && PcOk(p, |s.pc|, |s.pending|, |s.tpc|)
    ensures Shaped(Go(s, t, p))
  {
    hide PcOk, TpcOk;
    GoLocks(s, t, p);
  }

  /** A step of a thread that changes no list and no count. */
  lemma ThreadMove(s: Sys, t: int, p: Pc)
    requires InvBut(s, t, -1) && 0 <= t < |s.pc| && CanGo(s, t, p) && PcOk(p, |s.pc|, |s.pending|, |s.tpc|)
    requires !s.pc[t].Blocked? && WaitsOn(p) == WaitsOn(s.pc[t])
    requires TimedOn(p) == TimedOn(s.pc[t]) || !Asleep(s.sleepers, t)
    requires Signalling(p) ==> First(s.waiters, p.n, p.u) && (p.S3? || p.S4? ==> !s.cb[p.u])
    ensures Inv(Go(s, t, p))
  {
    hide Shaped, Locks, Waiting, Sleeping, Expiring, Waking, Balanced, EndsOnce, CanGo, WaitsOn, TimedOn, Relock;
    GoLocks(s, t, p);
    Lengths(s);
    ShapedMove(s, t, p);
    WaitSame(s.pc, s.waiters, t, p);
    SleepMove(s.pc, s.sleepers, s.cb, s.pend, s.cpu, s.qlock, t, p, Go(s, t, p).qlock);
    ExpMove(s.tpc, s.pc, s.pend, t, p, -1);
    WakingMove(s.pc, s.waiters, s.cb, t, p);
    EndsMove(s.pc, s.begun, s.ended, t, p);
  }

  lemma Lengths(s: Sys)
    requires Shaped(s)
    ensures |s.pc| == |s.cb| == |s.pend| == |s.cpu| == |s.qlock| == |s.begun| == |s.ended|
    ensures |s.pending| == |s.waiters| == |s.nlock| == |s.accepted| == |s.success| == |s.wraps|
    ensures |s.sleepers| == |s.slock| == |s.tpc|
  {
  }

  lemma Exempt(s: Sys, x: int, y: int)
    requires Inv(s)
    ensures InvBut(s, x, y)
  {
    hide Shaped, Locks, Waiting, Sleeping, Balanced, EndsOnce;
  }

  // ---- wait_notific ----

  lemma BeginKeeps(s: Sys, t: int, p: Pc)
    requires Inv(s) && 0 <= t < |s.pc| && s.pc[t] == Idle && CanGo(s, t, p) && (p.W1? || p.S1?)
      && PcOk(p, |s.pc|, |s.pending|, |s.tpc|)
    ensures Inv(Go(s, t, p))
  {
    hide Shaped, Locks, Waiting, Sleeping, Expiring, Waking, Balanced, EndsOnce, CanGo, PcOk;
    Exempt(s, t, -1);
    ThreadMove(s, t, p);
  }

  lemma TakeSignal(s: Sys, n: int)
    requires Inv(s) && 0 <= n < |s.pending| && |s.success| == |s.pending| && s.pending[n] > 0
    ensures Inv(s.(pending := s.pending[n := s.pending[n] - 1], success := s.success[n := s.success[n] + 1]))
  {
    hide Shaped, Locks, Waiting, Sleeping, Expiring, Waking, EndsOnce;
    var r := s.(pending := s.pending[n := s.pending[n] - 1], success := s.success[n := s.success[n] + 1]);
    DataShaped(s, r);
    LocksSame(s, r);
  }

  lemma KeepSignal(s: Sys, n: int)
    requires Inv(s) && 0 <= n < |s.pending| && |s.accepted| == |s.pending| == |s.waiters| == |s.wraps|
      && (s.pending[n] > 0 || s.waiters[n] == [])
    ensures Inv(Kept(s, n))
  {
    hide Shaped, Locks, Waiting, Sleeping, Expiring, Waking, EndsOnce;
    DataShaped(s, Kept(s, n));
    LocksSame(s, Kept(s, n));
  }

  lemma WakingJoin(pc: seq<Pc>, waiters: seq<seq<int>>, cb: seq<bool>, t: int, p: Pc, n: int)
    requires Waking(pc, waiters, cb, -1) && 0 <= t < |pc| && !Signalling(p) && 0 <= n < |waiters|
    ensures Waking(pc[t := p], waiters[n := waiters[n] + [t]], cb, -1)
  {
  }

  lemma EndsJoin(pc: seq<Pc>, begun: seq<nat>, ended: seq<nat>, t: int, p: Pc)
    requires EndsOnce(pc, begun, ended) && 0 <= t < |pc| && WaitsOn(pc[t]) == -1 && WaitsOn(p) != -1
    ensures EndsOnce(pc[t := p], begun[t := begun[t] + 1], ended)
  {
  }

  lemma BalancedJoin(s: Sys, n: int, l: seq<int>)
    requires Balanced(s.pending, s.waiters, s.accepted, s.success, s.wraps) && 0 <= n < |s.pending| && s.pending[n] == 0
    ensures |s.waiters| == |s.pending| && Balanced(s.pending, s.waiters[n := l], s.accepted, s.success, s.wraps)
  {
  }

  lemma JoinKeeps(s: Sys, t: int, n: int, timed: bool, cpu: int)
    requires Inv(s) && 0 <= t < |s.pc| && s.pc[t].W1? && s.pc[t].n == n && s.pc[t].cpu == cpu
      && CanGo(s, t, W2(n, timed, cpu))
    requires 0 <= n < |s.pending| == |s.waiters| && s.pending[n] == 0 && |s.begun| == |s.pc|
    ensures Inv(Go(s.(waiters := s.waiters[n := s.waiters[n] + [t]], begun := s.begun[t := s.begun[t] + 1]),
      t, W2(n, timed, cpu)))
  {
    hide Shaped, Locks, Waiting, Sleeping, Expiring, Waking, Balanced, EndsOnce, CanGo, PcOk, Relock;
    var p := W2(n, timed, cpu);
    var r := s.(waiters := s.waiters[n := s.waiters[n] + [t]], begun := s.begun[t := s.begun[t] + 1]);
    DataShaped(s, r);
    SameLocks(s, r, t, p);
    GoLocks(r, t, p);
    Lengths(s);
    PcAt(s, t, p);
    ShapedMove(r, t, p);
    WaitJoin(s.pc, s.waiters, t, p, n);
    SleepMove(s.pc, s.sleepers, s.cb, s.pend, s.cpu, s.qlock, t, p, Go(r, t, p).qlock);
    ExpMove(s.tpc, s.pc, s.pend, t, p, -1);
    WakingJoin(s.pc, s.waiters, s.cb, t, p, n);
    EndsJoin(s.pc, s.begun, s.ended, t, p);
    BalancedJoin(s, n, s.waiters[n] + [t]);
  }

  /** A program point with the parameters of another is well-formed too. */
  lemma PcAt(s: Sys, t: int, p: Pc)
    requires Shaped(s) && 0 <= t < |s.pc| && s.pc[t] != Idle && p != Idle && p.n == s.pc[t].n
    requires p.W1? || p.W2? || p.W3? ==> (s.pc[t].W1? || s.pc[t].W2? || s.pc[t].W3?) && p.cpu == s.pc[t].cpu
    requires Signalling(p) ==> Signalling(s.pc[t]) && p.u == s.pc[t].u && (p.S3? ==> p.cpu == s.cpu[p.u])
    ensures PcOk(p, |s.pc|, |s.pending|, |s.tpc|)
  {
    assert PcOk(s.pc[t], |s.pc|, |s.pending|, |s.tpc|);
  }

  ghost predicate SameShape(s: Sys, r: Sys) {
    && r.pc == s.pc && r.tpc == s.tpc && r.nlock == s.nlock && r.qlock == s.qlock && r.slock == s.slock
    && |r.cb| == |s.cb| && |r.pend| == |s.pend| && |r.cpu| == |s.cpu| && |r.pending| == |s.pending|
       && |r.waiters| == |s.waiters|
    && |r.sleepers| == |s.sleepers| && |r.accepted| == |s.accepted| && |r.success| == |s.success|
    && |r.begun| == |s.begun| && |r.ended| == |s.ended| && |r.wraps| == |s.wraps|
  }

  lemma DataShaped(s: Sys, r: Sys)
    requires Shaped(s) && SameShape(s, r)
    requires (r.pend == s.pend && r.cpu == s.cpu) || forall t :: 0 <= t < |s.pc| ==>
      0 <= r.pend[t] < |s.pending| && 0 <= r.cpu[t] < |s.tpc|
    ensures Shaped(r)
  {
    hide PcOk, TpcOk;
  }

  lemma LocksSame(s: Sys, r: Sys)
    requires Locks(s) && SameShape(s, r)
    ensures Locks(r)
  {
    hide Table;
  }

  lemma SameLocks(s: Sys, r: Sys, t: int, p: Pc)
    requires Locks(s) && SameShape(s, r) && 0 <= t < |s.pc|
    ensures Locks(r) && (CanGo(r, t, p) <==> CanGo(s, t, p))
  {
    hide Table;
  }

  /** Nobody else works on a thread that holds its own queue lock. */
  lemma NoSignaller(s: Sys, t: int)
    requires Locks(s) && Shaped(s) && 0 <= t < |s.pc| && (s.pc[t].W2? || s.pc[t].W3? || s.pc[t].W4?)
    ensures forall x :: 0 <= x < |s.pc| && Signalling(s.pc[x]) ==> s.pc[x].u != t
    ensures s.qlock[t] == Thr(t)
  {
    hide Table;
    ThreadHolds(s, t);
    forall x | 0 <= x < |s.pc| && Signalling(s.pc[x]) ensures s.pc[x].u != t { ThreadHolds(s, x); }
  }

  lemma WakingSleeps(pc: seq<Pc>, waiters: seq<seq<int>>, cb: seq<bool>, t: int, p: Pc)
    requires Waking(pc, waiters, cb, -1) && 0 <= t < |pc| && !Signalling(p)
    requires forall x :: 0 <= x < |pc| && Signalling(pc[x]) ==> pc[x].u != t
    ensures Waking(pc[t := p], waiters, cb[t := true], -1)
  {
  }

  lemma ExpSleeps(tpc: seq<Tpc>, pc: seq<Pc>, pend: seq<int>, t: int, p: Pc, n: int)
    requires Expiring(tpc, pc, pend, -1) && 0 <= t < |pc| && !pc[t].Blocked?
    ensures Expiring(tpc, pc[t := p], pend[t := n], -1)
  {
  }

  ghost function Slept(s: Sys, t: int, n: int, cpu: int, k: int): Sys
    requires Shaped(s) && 0 <= t < |s.pc| && 0 <= cpu < |s.sleepers| && 0 <= k <= |s.sleepers[cpu]|
  {
    s.(sleepers := s.sleepers[cpu := s.sleepers[cpu][..k] + [t] + s.sleepers[cpu][k..]],
      cb := s.cb[t := true], pend := s.pend[t := n], cpu := s.cpu[t := cpu])
  }

  lemma SleptShaped(s: Sys, t: int, n: int, cpu: int, k: int)
    requires Shaped(s) && 0 <= t < |s.pc| && 0 <= cpu < |s.sleepers| && 0 <= k <= |s.sleepers[cpu]|
      && 0 <= n < |s.pending|
    ensures Shaped(Slept(s, t, n, cpu, k)) && SameShape(s, Slept(s, t, n, cpu, k))
  {
    hide PcOk, TpcOk;
    DataShaped(s, Slept(s, t, n, cpu, k));
  }

  lemma SleepKeeps(s: Sys, t: int, n: int, cpu: int, k: int)
    requires Inv(s) && 0 <= t < |s.pc| && s.pc[t].W2? && s.pc[t].n == n && s.pc[t].cpu == cpu && CanGo(s, t, W3(n, cpu))
    requires 0 <= n < |s.pending| && 0 <= cpu < |s.sleepers| && 0 <= k <= |s.sleepers[cpu]|
    ensures Inv(Go(Slept(s, t, n, cpu, k), t, W3(n, cpu)))
  {
    hide Shaped, Locks, Waiting, Sleeping, Expiring, Waking, Balanced, EndsOnce, CanGo, PcOk, Relock;
    var p := W3(n, cpu);
    var r := Slept(s, t, n, cpu, k);
    Lengths(s);
    SleptShaped(s, t, n, cpu, k);
    SameLocks(s, r, t, p);
    GoLocks(r, t, p);
    PcAt(s, t, p);
    ShapedMove(r, t, p);
    NoSignaller(s, t);
    NotAsleep(s, t);
    WaitSame(s.pc, s.waiters, t, p);
    SleepInsert(s.pc, s.sleepers, s.cb, s.pend, s.cpu, s.qlock, t, p, cpu, k, Go(r, t, p).qlock);
    ExpSleeps(s.tpc, s.pc, s.pend, t, p, n);
    WakingSleeps(s.pc, s.waiters, s.cb, t, p);
    EndsMove(s.pc, s.begun, s.ended, t, p);
  }

  lemma WaitStepKeeps(s: Sys, t: int, k: int)
    requires Inv(s) && Can(s, WaitOn(t, k))
    ensures Inv(WaitStep(s, t, k))
  {
    hide Locks, Waiting, Sleeping, Expiring, Waking, Balanced, EndsOnce, CanGo, Relock, TpcOk, Table;
    Exempt(s, t, -1);
    var p := s.pc[t];
    assert PcOk(p, |s.pc|, |s.pending|, |s.tpc|);
    match p {
      case W1(n, block, timed, cpu) =>
        if s.pending[n] > 0 {
          TakeSignal(s, n);
          var r := s.(pending := s.pending[n := s.pending[n] - 1], success := s.success[n := s.success[n] + 1]);
          Exempt(r, t, -1);
          SameLocks(s, r, t, Idle);
          ThreadMove(r, t, Idle);
        } else if block {
          JoinKeeps(s, t, n, timed, cpu);
        } else {
          ThreadMove(s, t, Idle);
        }
      case W2(n, timed, cpu) =>
        if timed {
          SleepKeeps(s, t, n, cpu, k);
        } else {
          NotAsleep(s, t);
          ThreadMove(s, t, W4(n));
        }
      case W3(n, cpu) => ThreadMove(s, t, W4(n));
      case W4(n) => ThreadMove(s, t, Blocked(n));
    }
  }

  // ---- a blocked thread is woken ----

  lemma WakingLeave(pc: seq<Pc>, waiters: seq<seq<int>>, cb: seq<bool>, u: int, n: int, x: int)
    requires Waking(pc, waiters, cb, -1) && 0 <= u < |pc| && 0 <= n < |waiters|
    requires forall t :: 0 <= t < |pc| && t != x && Signalling(pc[t]) ==> pc[t].n != n
    ensures Waking(pc[u := Idle], waiters[n := Without(waiters[n], u)], cb, x)
  {
  }

  lemma EndsLeave(pc: seq<Pc>, begun: seq<nat>, ended: seq<nat>, u: int)
    requires EndsOnce(pc, begun, ended) && 0 <= u < |pc| && WaitsOn(pc[u]) != -1
    ensures EndsOnce(pc[u := Idle], begun, ended[u := ended[u] + 1])
  {
  }

  lemma ExpLeave(tpc: seq<Tpc>, pc: seq<Pc>, pend: seq<int>, u: int, y: int)
    requires Expiring(tpc, pc, pend, -1) && 0 <= u < |pc|
    requires forall c :: 0 <= c < |tpc| && c != y && (tpc[c].T2? || tpc[c].T3?) ==> tpc[c].u != u
    ensures Expiring(tpc, pc[u := Idle], pend, y)
  {
  }

  lemma WakeKeeps(s: Sys, u: int, n: int, x: int, y: int)
    requires Inv(s) && 0 <= u < |s.pc| && s.pc[u] == Blocked(n) && 0 <= n < |s.waiters| && |s.pc| == |s.ended|
    requires !Asleep(s.sleepers, u)
    requires forall t :: 0 <= t < |s.pc| && t != x && Signalling(s.pc[t]) ==> s.pc[t].n != n
    requires forall c :: 0 <= c < |s.tpc| && c != y && (s.tpc[c].T2? || s.tpc[c].T3?) ==> s.tpc[c].u != u
    ensures InvBut(Wake(s, u, n), x, y)
    ensures SameShape(s.(pc := Wake(s, u, n).pc), Wake(s, u, n)) && Wake(s, u, n).pc == s.pc[u := Idle]
  {
    hide Shaped, Locks, Waiting, Sleeping, Expiring, Waking, Balanced, EndsOnce, CanGo, PcOk, Without;
    var r := s.(waiters := s.waiters[n := Without(s.waiters[n], u)], ended := s.ended[u := s.ended[u] + 1]);
    Lengths(s);
    DataShaped(s, r);
    SameLocks(s, r, u, Idle);
    IdleFree(s, u);
    GoLocks(r, u, Idle);
    IdleOk(s);
    ShapedMove(r, u, Idle);
    WaitLeave(s.pc, s.waiters, u, Idle, n);
    SleepMove(s.pc, s.sleepers, s.cb, s.pend, s.cpu, s.qlock, u, Idle, Go(r, u, Idle).qlock);
    ExpLeave(s.tpc, s.pc, s.pend, u, y);
    WakingLeave(s.pc, s.waiters, s.cb, u, n, x);
    EndsLeave(s.pc, s.begun, s.ended, u);
    BalancedLeave(s, n, u);
  }

  lemma IdleFree(s: Sys, u: int)
    requires 0 <= u < |s.pc|
    ensures CanGo(s, u, Idle)
  {
  }

  lemma IdleOk(s: Sys)
    ensures PcOk(Idle, |s.pc|, |s.pending|, |s.tpc|)
  {
  }

  lemma BalancedLeave(s: Sys, n: int, u: int)
    requires Balanced(s.pending, s.waiters, s.accepted, s.success, s.wraps) && 0 <= n < |s.waiters|
    ensures Balanced(s.pending, s.waiters[n := Without(s.waiters[n], u)], s.accepted, s.success, s.wraps)
  {
  }

  lemma BothCount(s: Sys, n: int, x: int, y: int)
    requires InvBut(s, x, y) && 0 <= n < |s.accepted| == |s.success|
    ensures InvBut(s.(accepted := s.accepted[n := s.accepted[n] + 1], success := s.success[n := s.success[n] + 1]),
      x, y)
  {
    hide Shaped, Locks, Waiting, Sleeping, Expiring, Waking, EndsOnce;
    var r := s.(accepted := s.accepted[n := s.accepted[n] + 1], success := s.success[n := s.success[n] + 1]);
    DataShaped(s, r);
    LocksSame(s, r);
  }

  // ---- signal_notific ----

  /** The thread a signaller works on is blocked, and nobody else touches it. */
  lemma TargetBlocked(s: Sys, t: int)
    requires Inv(s) && 0 <= t < |s.pc| && Signalling(s.pc[t])
    ensures var n, u := s.pc[t].n, s.pc[t].u;
      && 0 <= n < |s.waiters| && 0 <= u < |s.pc| && u != t && s.pc[u] == Blocked(n) && s.qlock[u] == Thr(t)
      && (forall x :: 0 <= x < |s.pc| && x != t && Signalling(s.pc[x]) ==> s.pc[x].n != n)
      && (forall c :: 0 <= c < |s.tpc| && (s.tpc[c].T2? || s.tpc[c].T3?) ==> s.tpc[c].u != u)
  {
    hide Table, NoDup, Sleeping, Balanced, EndsOnce, Expiring;
    var n, u := s.pc[t].n, s.pc[t].u;
    assert First(s.waiters, n, u) && u in s.waiters[n];
    ThreadHolds(s, t);
    ThreadHolds(s, u);
    forall x | 0 <= x < |s.pc| && x != t && Signalling(s.pc[x]) ensures s.pc[x].n != n { ThreadHolds(s, x); }
    forall c | 0 <= c < |s.tpc| && (s.tpc[c].T2? || s.tpc[c].T3?) ensures s.tpc[c].u != u { TimerHolds(s, c); }
  }

  lemma CutKeeps(s: Sys, t: int)
    requires Inv(s) && 0 <= t < |s.pc| && s.pc[t].S2? && 0 <= s.pc[t].u < |s.cb| == |s.cpu| && s.cb[s.pc[t].u]
      && 0 <= s.cpu[s.pc[t].u] < |s.sleepers|
    ensures var u := s.pc[t].u; var c := s.cpu[u];
      Inv(s.(sleepers := s.sleepers[c := Without(s.sleepers[c], u)], cb := s.cb[u := false]))
  {
    hide Shaped, Locks, Waiting, Sleeping, Expiring, Waking, Balanced, EndsOnce, Without;
    var u := s.pc[t].u;
    var c := s.cpu[u];
    var r := s.(sleepers := s.sleepers[c := Without(s.sleepers[c], u)], cb := s.cb[u := false]);
    Lengths(s);
    TargetBlocked(s, t);
    DataShaped(s, r);
    LocksSame(s, r);
    SleepCut(s.pc, s.sleepers, s.cb, s.pend, s.cpu, s.qlock, u);
    WakingCut(s.pc, s.waiters, s.cb, u);
  }

  lemma WakingCut(pc: seq<Pc>, waiters: seq<seq<int>>, cb: seq<bool>, u: int)
    requires Waking(pc, waiters, cb, -1) && 0 <= u < |cb|
    ensures Waking(pc, waiters, cb[u := false], -1)
  {
  }

  lemma SignalEnds(s: Sys, t: int)
    requires Inv(s) && 0 <= t < |s.pc| && s.pc[t].S4?
    ensures Inv(SignalStep(s, t))
  {
    hide Shaped, Locks, Waiting, Sleeping, Expiring, Balanced, EndsOnce, Without, Relock, CanGo;
    var n, u := s.pc[t].n, s.pc[t].u;
    Lengths(s);
    TargetBlocked(s, t);
    NotAsleep(s, u);
    WakeKeeps(s, u, n, t, -1);
    var w := Wake(s, u, n);
    BothCount(w, n, t, -1);
    var r := w.(accepted := s.accepted[n := s.accepted[n] + 1], success := s.success[n := s.success[n] + 1]);
    IdleFree(r, t);
    IdleOk(r);
    ThreadMove(r, t, Idle);
  }

  lemma FirstThread(s: Sys, n: int)
    requires Waiting(s.pc, s.waiters) && 0 <= n < |s.waiters| && s.waiters[n] != []
    ensures 0 <= s.waiters[n][0] < |s.pc|
  {
    assert s.waiters[n][0] in s.waiters[n];
  }

  lemma SignalStepKeeps(s: Sys, t: int)
    requires Inv(s) && Can(s, SignalOn(t))
    ensures Inv(SignalStep(s, t))
  {
    hide Locks, Waiting, Sleeping, Expiring, Balanced, EndsOnce, CanGo, Relock, TpcOk, Table, Without;
    Exempt(s, t, -1);
    IdleFree(s, t);
    var n := s.pc[t].n;
    assert PcOk(s.pc[t], |s.pc|, |s.pending|, |s.tpc|);
    match s.pc[t] {
      case S1(_) =>
        if s.pending[n] > 0 || s.waiters[n] == [] {
          KeepSignal(s, n);
          var r := Kept(s, n);
          Exempt(r, t, -1);
          SameLocks(s, r, t, Idle);
          ThreadMove(r, t, Idle);
        } else {
          FirstThread(s, n);
          if CanGo(s, t, S2(n, Head(s, n))) { ThreadMove(s, t, S2(n, Head(s, n))); } else { ThreadMove(s, t, Idle); }
        }
      case S2(_, u) =>
        var c := s.cpu[u];
        if !s.cb[u] {
          FreeS4(s, t);
          ThreadMove(s, t, S4(n, u));
        } else if CanGo(s, t, S3(n, u, c)) {
          CutKeeps(s, t);
          var r := s.(sleepers := s.sleepers[c := Without(s.sleepers[c], u)], cb := s.cb[u := false]);
          Exempt(r, t, -1);
          SameLocks(s, r, t, S3(n, u, c));
          ThreadMove(r, t, S3(n, u, c));
        } else {
          ThreadMove(s, t, Idle);
        }
      case S3(_, u, _) =>
        FreeS4(s, t);
        ThreadMove(s, t, S4(n, u));
      case S4(_, u) => SignalEnds(s, t);
    }
  }

  lemma FreeS4(s: Sys, t: int)
    requires 0 <= t < |s.pc| && (s.pc[t].S2? || s.pc[t].S3?)
    ensures CanGo(s, t, S4(s.pc[t].n, s.pc[t].u))
  {
  }

  // ---- the timer interrupt ----

  lemma ExpTimer(tpc: seq<Tpc>, pc: seq<Pc>, pend: seq<int>, c: int, p: Tpc)
    requires Expiring(tpc, pc, pend, c) && 0 <= c < |tpc|
    requires p.T2? ==> 0 <= p.u < |pc| && pc[p.u] == Blocked(pend[p.u])
    requires p.T3? ==> 0 <= p.u < |pc| && pc[p.u] == Blocked(p.n)
    ensures Expiring(tpc[c := p], pc, pend, -1)
  {
  }

  lemma ShapedTimer(s: Sys, c: int, p: Tpc)
    requires Shaped(s) && Locks(s) && 0 <= c < |s.tpc| && CanGoTimer(s, c, p) && TpcOk(p, |s.pc|, |s.pending|)
    ensures Shaped(GoTimer(s, c, p))
  {
    hide PcOk, TpcOk;
    GoTimerLocks(s, c, p);
  }

  /** A step of a timer, given what becomes of the sleep lists. */
  lemma TimerMove(s: Sys, c: int, p: Tpc)
    requires InvBut(s, -1, c) && 0 <= c < |s.tpc| && CanGoTimer(s, c, p) && TpcOk(p, |s.pc|, |s.pending|)
    requires p.T2? ==> s.pc[p.u] == Blocked(s.pend[p.u])
    requires p.T3? ==> s.pc[p.u] == Blocked(p.n)
    requires TimerQ(p) == TimerQ(s.tpc[c])
    ensures Inv(GoTimer(s, c, p))
  {
    hide Shaped, Locks, Waiting, Sleeping, Expiring, Waking, Balanced, EndsOnce, CanGoTimer, Free;
    GoTimerLocks(s, c, p);
    Lengths(s);
    ShapedTimer(s, c, p);
    ExpTimer(s.tpc, s.pc, s.pend, c, p);
  }

  lemma FireKeeps(s: Sys, c: int, now: int)
    requires Inv(s) && 0 <= c < |s.tpc| && s.tpc[c].T1? && |s.sleepers| == |s.tpc| && s.sleepers[c] != []
    requires CanGoTimer(s, c, T2(s.sleepers[c][0], now))
    ensures Inv(GoTimer(s.(sleepers := s.sleepers[c := s.sleepers[c][1..]]), c, T2(s.sleepers[c][0], now)))
  {
    hide Shaped, Locks, Waiting, Sleeping, Expiring, Waking, Balanced, EndsOnce;
    var u := s.sleepers[c][0];
    var p := T2(u, now);
    var r := s.(sleepers := s.sleepers[c := s.sleepers[c][1..]]);
    Lengths(s);
    DataShaped(s, r);
    LocksSame(s, r);
    SleepFire(s.pc, s.sleepers, s.cb, s.pend, s.cpu, s.qlock, c, c);
    GoTimerLocks(r, c, p);
    ShapedTimer(r, c, p);
    FreeMeansBlocked(s, u);
    ExemptTimer(s, c);
    ExpTimer(s.tpc, s.pc, s.pend, c, p);
  }

  lemma ExemptTimer(s: Sys, c: int)
    requires Inv(s)
    ensures Expiring(s.tpc, s.pc, s.pend, c)
  {
  }

  /** A sleeper whose queue lock is free has blocked. */
  lemma FreeMeansBlocked(s: Sys, u: int)
    requires Locks(s) && Shaped(s) && 0 <= u < |s.pc| && s.qlock[u] == Nobody && TimedOn(s.pc[u]) == s.pend[u]
    ensures s.pc[u] == Blocked(s.pend[u])
  {
    hide Table;
    ThreadHolds(s, u);
  }

  lemma DoneKeeps(s: Sys, c: int)
    requires Inv(s) && 0 <= c < |s.tpc| && s.tpc[c].T4? && 0 <= s.tpc[c].u < |s.cb|
      && CanGoTimer(s, c, T1(s.tpc[c].now))
    ensures Inv(GoTimer(s.(cb := s.cb[s.tpc[c].u := false]), c, T1(s.tpc[c].now)))
  {
    hide Shaped, Locks, Waiting, Sleeping, Expiring, Waking, Balanced, EndsOnce;
    var u := s.tpc[c].u;
    var p := T1(s.tpc[c].now);
    var r := s.(cb := s.cb[u := false]);
    Lengths(s);
    DataShaped(s, r);
    LocksSame(s, r);
    TimerHolds(s, c);
    SleepDone(s.pc, s.sleepers, s.cb, s.pend, s.cpu, s.qlock, u);
    GoTimerLocks(r, c, p);
    ShapedTimer(r, c, p);
    ExemptTimer(s, c);
    ExpTimer(s.tpc, s.pc, s.pend, c, p);
    WakingCut(s.pc, s.waiters, s.cb, u);
  }

  /** When the callback runs, its thread is waiting, and nobody else touches it. */
  lemma CallbackFindsWaiting(s: Sys, c: int)
    requires Inv(s) && 0 <= c < |s.tpc| && s.tpc[c].T3?
    ensures var n, u := s.tpc[c].n, s.tpc[c].u;
      && 0 <= n < |s.waiters| && 0 <= u < |s.pc| && s.pc[u] == Blocked(n) && s.qlock[u] == Tim(c)
      && (forall x :: 0 <= x < |s.pc| && Signalling(s.pc[x]) ==> s.pc[x].n != n)
      && (forall d :: 0 <= d < |s.tpc| && d != c && (s.tpc[d].T2? || s.tpc[d].T3?) ==> s.tpc[d].u != u)
  {
    hide Table, NoDup, Sleeping, Balanced, EndsOnce, Waking, Waiting;
    var n, u := s.tpc[c].n, s.tpc[c].u;
    TimerHolds(s, c);
    forall x | 0 <= x < |s.pc| && Signalling(s.pc[x]) ensures s.pc[x].n != n { ThreadHolds(s, x); }
    forall d | 0 <= d < |s.tpc| && d != c && (s.tpc[d].T2? || s.tpc[d].T3?)
      ensures s.tpc[d].u != u
    {
      TimerHolds(s, d);
    }
  }

  lemma TimeoutKeeps(s: Sys, c: int)
    requires Inv(s) && 0 <= c < |s.tpc| && s.tpc[c].T3?
    ensures Inv(TimerStep(s, c, false)) && Inv(TimerStep(s, c, true))
  {
    hide Shaped, Locks, Waiting, Sleeping, Expiring, Waking, Balanced, EndsOnce, Without, Relock;
    var n, u := s.tpc[c].n, s.tpc[c].u;
    Lengths(s);
    CallbackFindsWaiting(s, c);
    NotAsleep(s, u);
    WakeKeeps(s, u, n, -1, c);
    TimerMove(Wake(s, u, n), c, T4(u, s.tpc[c].now));
  }

  lemma TimerStepKeeps(s: Sys, c: int, done: bool)
    requires Inv(s) && Can(s, TimerOn(c, done))
    ensures Inv(TimerStep(s, c, done))
  {
    hide Locks, Waiting, Sleeping, Waking, Balanced, EndsOnce, CanGoTimer, Relock, PcOk, Table, Without;
    Exempt(s, -1, c);
    var p := s.tpc[c];
    assert TpcOk(p, |s.pc|, |s.pending|);
    match p {
      case T1(now) =>
        if done || s.sleepers[c] == [] { TimerMove(s, c, T0); } else { FireKeeps(s, c, now); }
      case T2(u, now) => TimerMove(s, c, T3(u, s.pend[u], now));
      case T3(u, n, now) => TimeoutKeeps(s, c);
      case T4(u, now) => DoneKeeps(s, c);
    }
  }

  // ---- whole runs ----

  lemma StepKeeps(s: Sys, e: Step)
    requires Inv(s) && Can(s, e)
    ensures Inv(Do(s, e))
  {
    hide Shaped, Locks, Waiting, Sleeping, Expiring, Waking, Balanced, EndsOnce, CanGo, CanGoTimer, WaitStep,
      SignalStep, TimerStep;
    match e {
      case BeginWait(t, n, block, timed, cpu) => BeginKeeps(s, t, W1(n, block, timed, cpu));
      case BeginSignal(t, n) => BeginKeeps(s, t, S1(n));
      case WaitOn(t, k) => WaitStepKeeps(s, t, k);
      case SignalOn(t) => SignalStepKeeps(s, t);
      case BeginTimer(c, now) => Exempt(s, -1, c); TimerMove(s, c, T1(now));
      case TimerOn(c, done) => TimerStepKeeps(s, c, done);
    }
  }

  /** Nothing has happened yet. */
  ghost predicate Start(s: Sys) {
    && Shaped(s)
    && (forall t :: 0 <= t < |s.pc| ==>
       s.pc[t] == Idle && !s.cb[t] && s.qlock[t] == Nobody && s.begun[t] == s.ended[t] == 0)
    && (forall n :: 0 <= n < |s.pending| ==>
       s.pending[n] == 0 && s.waiters[n] == [] && s.nlock[n] == Nobody
       && s.accepted[n] == s.success[n] == s.wraps[n] == 0)
    && (forall c :: 0 <= c < |s.tpc| ==> s.tpc[c] == T0 && s.sleepers[c] == [] && s.slock[c] == Nobody)
  }

  ghost function Boot(threads: nat, notifs: nat, cpus: nat): Sys {
    Sys(Rep(threads, Idle), Rep(threads, false), Rep(threads, 0), Rep(threads, 0), Rep(threads, Nobody),
      Rep(notifs, 0), Rep(notifs, []), Rep(notifs, Nobody), Rep(cpus, []), Rep(cpus, Nobody), Rep(cpus, T0),
      Rep(notifs, 0), Rep(notifs, 0), Rep(threads, 0), Rep(threads, 0), Rep(notifs, 0))
  }

  ghost function Rep<T>(n: nat, x: T): (r: seq<T>)
    ensures |r| == n && forall i :: 0 <= i < n ==> r[i] == x
  {
    seq(n, _ => x)
  }

  lemma BootStarts(threads: nat, notifs: nat, cpus: nat)
    requires notifs > 0 && cpus > 0
    ensures var s := Boot(threads, notifs, cpus);
      Start(s) && |s.pc| == threads && |s.pending| == notifs && |s.tpc| == cpus
  {
    hide Rep;
  }

  lemma StartInv(s: Sys)
    requires Start(s)
    ensures Inv(s)
  {
    assert Table(s.nlock, HeldNs(s.pc), TimerNs(s.tpc));
    assert Table(s.qlock, HeldQs(s.pc), TimerQs(s.tpc));
    assert Table(s.slock, HeldSs(s.pc), TimerSs(s.tpc));
  }

  ghost predicate Reaches(s: Sys, es: seq<Step>, r: Sys) {
    if es == [] then r == s
    else exists q :: Reaches(s, es[..|es| - 1], q) && Shaped(q) && Can(q, es[|es| - 1]) && r == Do(q, es[|es| - 1])
  }

  lemma ReachesMore(s: Sys, es: seq<Step>, q: Sys, e: Step)
    requires Reaches(s, es, q) && Shaped(q) && Can(q, e)
    ensures Reaches(s, es + [e], Do(q, e))
  {
    hide Can, Do;
    assert (es + [e])[..|es|] == es;
  }

  /** In every run: signals and waiters are never both there, accepted signals are the waits that
  returned 0 plus those still pending plus what wrap-around lost, each blocked wait ends once, and
  the timer callback finds its thread waiting. */
  lemma {:induction false} EveryRun(s: Sys, es: seq<Step>, r: Sys)
    requires Start(s) && Reaches(s, es, r)
    ensures Inv(r)
    ensures forall n :: 0 <= n < |r.pending| ==> r.pending[n] == 0 || r.waiters[n] == []
    ensures forall n :: 0 <= n < |r.pending| ==> r.accepted[n] == r.success[n] + r.pending[n] + U32 * r.wraps[n]
    ensures forall n :: 0 <= n < |r.pending| ==>
      (r.accepted[n] == r.success[n] + r.pending[n] <==> r.accepted[n] - r.success[n] < U32)
    ensures forall t :: 0 <= t < |r.pc| ==> r.begun[t] == r.ended[t] + (if WaitsOn(r.pc[t]) == -1 then 0 else 1)
    ensures forall c :: 0 <= c < |r.tpc| && r.tpc[c].T3? ==> r.pc[r.tpc[c].u] == Blocked(r.tpc[c].n)
    decreases |es|
  {
    hide InvBut, Can, Do;
    if es == [] {
      StartInv(s);
    } else {
      var q :| Reaches(s, es[..|es| - 1], q) && Shaped(q) && Can(q, es[|es| - 1]) && r == Do(q, es[|es| - 1]);
      EveryRun(s, es[..|es| - 1], q);
      StepKeeps(q, es[|es| - 1]);
    }
    Promises(r);
  }

  lemma Promises(r: Sys)
    requires Inv(r)
    ensures Shaped(r)
    ensures forall n :: 0 <= n < |r.pending| ==> r.pending[n] == 0 || r.waiters[n] == []
    ensures forall n :: 0 <= n < |r.pending| ==> r.accepted[n] == r.success[n] + r.pending[n] + U32 * r.wraps[n]
    ensures forall n :: 0 <= n < |r.pending| ==>
      (r.accepted[n] == r.success[n] + r.pending[n] <==> r.accepted[n] - r.success[n] < U32)
    ensures forall t :: 0 <= t < |r.pc| ==> r.begun[t] == r.ended[t] + (if WaitsOn(r.pc[t]) == -1 then 0 else 1)
    ensures forall c :: 0 <= c < |r.tpc| && r.tpc[c].T3? ==> r.pc[r.tpc[c].u] == Blocked(r.tpc[c].n)
  {
    hide Locks, Waiting, Sleeping, Waking, PcOk;
  }
}
