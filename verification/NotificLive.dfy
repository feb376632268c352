/**
Freedom from deadlock in the notification protocol (`notification.c`, `timer.c`).

`signal_notific` only tries the locks of the thread it wakes, because a timer takes its locks in
the opposite order. That is enough as long as the timer interrupt of a CPU does not run in the
middle of a wait on that CPU, which holds in the kernel since it runs with interrupts off.
*/
module NotificLive {
  import opened Lists
  import opened NotificModel
  import opened NotificProof

  // ---- interrupts are off in the kernel ----

  /** Inside `wait_notific` on CPU `c`, before the last unlocking. */
  predicate WaitsOnCpu(p: Pc, c: int) { (p.W1? || p.W2? || p.W3?) && p.cpu == c }

  /** No timer interrupt of a CPU is under way while a thread waits there. */
  ghost predicate Alone(s: Sys) {
    forall t, c :: 0 <= t < |s.pc| && 0 <= c < |s.tpc| && WaitsOnCpu(s.pc[t], c) ==> s.tpc[c] == T0
  }

  /** A wait and a timer interrupt do not start on a CPU where the other is under way. */
  ghost predicate Exclusive(s: Sys, e: Step)
    requires Shaped(s) && Can(s, e)
  {
    && (e.BeginWait? ==> s.tpc[e.cpu] == T0)
    && (e.BeginTimer? ==> forall t :: 0 <= t < |s.pc| ==> !WaitsOnCpu(s.pc[t], e.c))
  }

  /** What a step does to the program points: one thread goes on, and one may become ready. */
  ghost predicate Advances(s: Sys, r: Sys, t: int, p: Pc, u: int) {
    && r.tpc == s.tpc && 0 <= t < |s.pc| == |r.pc| && r.pc[t] == p
    && forall x :: 0 <= x < |s.pc| && x != t ==> r.pc[x] == s.pc[x] || (x == u && r.pc[x] == Idle)
  }

  lemma AdvanceAlone(s: Sys, r: Sys, t: int, p: Pc, u: int)
    requires Alone(s) && Advances(s, r, t, p, u)
    requires forall c :: 0 <= c < |s.tpc| && WaitsOnCpu(p, c) ==> WaitsOnCpu(s.pc[t], c) || s.tpc[c] == T0
    ensures Alone(r)
  {
  }

  lemma AloneKeeps(s: Sys, e: Step)
    requires Inv(s) && Can(s, e) && Alone(s) && Exclusive(s, e)
    ensures Alone(Do(s, e))
  {
    hide InvBut, CanGo, CanGoTimer, Relock, WaitStep, SignalStep, TimerStep, Alone;
    SysShaped(s);
    match e {
      case BeginWait(t, n, block, timed, cpu) => AdvanceAlone(s, Do(s, e), t, W1(n, block, timed, cpu), -1);
      case BeginSignal(t, n) => AdvanceAlone(s, Do(s, e), t, S1(n), -1);
      case WaitOn(t, k) => WaitAlone(s, t, k);
      case SignalOn(t) => SignalAlone(s, t);
      case BeginTimer(c, now) => BeginAlone(s, c, now);
      case TimerOn(c, done) => TimerAlone(s, c, done);
    }
  }

  lemma WaitAlone(s: Sys, t: int, k: int)
    requires Inv(s) && Can(s, WaitOn(t, k)) && Alone(s)
    ensures Alone(WaitStep(s, t, k))
  {
    hide Locks, Waiting, Sleeping, Expiring, Waking, Balanced, EndsOnce, CanGo, Relock, Alone;
    AdvanceAlone(s, WaitStep(s, t, k), t, WaitStep(s, t, k).pc[t], -1);
  }

  lemma BeginAlone(s: Sys, c: int, now: int)
    requires Inv(s) && Can(s, BeginTimer(c, now)) && Alone(s) && Exclusive(s, BeginTimer(c, now))
    ensures Alone(GoTimer(s, c, T1(now)))
  {
    hide Locks, Waiting, Sleeping, Expiring, Waking, Balanced, EndsOnce, CanGoTimer, Relock;
  }

  lemma TimerAlone(s: Sys, c: int, done: bool)
    requires Inv(s) && Can(s, TimerOn(c, done)) && Alone(s)
    ensures Alone(TimerStep(s, c, done))
  {
    hide Locks, Waiting, Sleeping, Expiring, Waking, Balanced, EndsOnce, CanGoTimer, Relock, Without;
    assert TpcOk(s.tpc[c], |s.pc|, |s.pending|);
  }

  lemma SignalAlone(s: Sys, t: int)
    requires Inv(s) && Can(s, SignalOn(t)) && Alone(s)
    ensures Alone(SignalStep(s, t))
  {
    hide Locks, Waiting, Sleeping, Expiring, Balanced, EndsOnce, CanGo, Relock, Without;
    var r := SignalStep(s, t);
    assert PcOk(s.pc[t], |s.pc|, |s.pending|, |s.tpc|);
    AdvanceAlone(s, r, t, r.pc[t], if s.pc[t].S4? then s.pc[t].u else -1);
  }

  /** `r` is reached from `s` by the steps `es` on hardware that masks interrupts in the kernel. */
  ghost predicate Runs(s: Sys, es: seq<Step>, r: Sys) {
    if es == [] then r == s
    else exists q ::
      Runs(s, es[..|es| - 1], q) && Shaped(q) && Can(q, es[|es| - 1]) && Exclusive(q, es[|es| - 1])
      && r == Do(q, es[|es| - 1])
  }

  lemma {:induction false} EveryMaskedRun(s: Sys, es: seq<Step>, r: Sys)
    requires Start(s) && Runs(s, es, r)
    ensures Inv(r) && Alone(r)
    decreases |es|
  {
    hide InvBut, Can, Do, Alone, Exclusive;
    if es == [] {
      StartInv(s);
      StartAlone(s);
    } else {
      var q :| Runs(s, es[..|es| - 1], q) && Shaped(q) && Can(q, es[|es| - 1]) && Exclusive(q, es[|es| - 1])
        && r == Do(q, es[|es| - 1]);
      EveryMaskedRun(s, es[..|es| - 1], q);
      StepKeeps(q, es[|es| - 1]);
      AloneKeeps(q, es[|es| - 1]);
    }
  }

  lemma StartAlone(s: Sys)
    requires Start(s)
    ensures Alone(s)
  {
  }

  // ---- some actor can always go on ----

  ghost predicate Unfinished(s: Sys) {
    || (exists t :: 0 <= t < |s.pc| && s.pc[t] != Idle && !s.pc[t].Blocked?)
    || (exists c :: 0 <= c < |s.tpc| && s.tpc[c] != T0)
  }

  predicate Begins(e: Step) { e.BeginWait? || e.BeginSignal? || e.BeginTimer? }

  /** Who holds a lock is at a point where it holds it. */
  lemma Holder(lock: seq<Actor>, heldT: seq<int>, heldC: seq<int>, n: int)
    requires Table(lock, heldT, heldC) && 0 <= n < |lock|
    ensures lock[n] == Nobody || (lock[n].Thr? && 0 <= lock[n].t < |heldT| && heldT[lock[n].t] == n)
      || (lock[n].Tim? && 0 <= lock[n].c < |heldC| && heldC[lock[n].c] == n)
  {
  }

  predicate Signals(p: Pc) { p.S1? || Signalling(p) }

  predicate Waits(p: Pc) { p.W1? || p.W2? || p.W3? || p.W4? }

  ghost predicate NoSignals(s: Sys) { forall t :: 0 <= t < |s.pc| ==> !Signals(s.pc[t]) }

  /** Every timer interrupt is idle or about to lock a notification. */
  ghost predicate OnlyT2(s: Sys) { forall c :: 0 <= c < |s.tpc| ==> s.tpc[c] == T0 || s.tpc[c].T2? }

  lemma TimerGoes(s: Sys, c: int)
    requires Inv(s) && 0 <= c < |s.tpc| && (s.tpc[c].T1? || s.tpc[c].T3? || s.tpc[c].T4?)
    ensures Can(s, TimerOn(c, true))
  {
    hide Locks, Waiting, Sleeping, Expiring, Waking, Balanced, EndsOnce, Relock, Without;
    assert TpcOk(s.tpc[c], |s.pc|, |s.pending|);
  }

  /** A waiter past the sleep list only unlocks. */
  lemma LateWaiterGoes(s: Sys, t: int)
    requires Inv(s) && 0 <= t < |s.pc| && (s.pc[t].W3? || s.pc[t].W4?)
    ensures Can(s, WaitOn(t, 0))
  {
    hide Locks, Waiting, Sleeping, Expiring, Waking, Balanced, EndsOnce, Relock, Without;
    assert PcOk(s.pc[t], |s.pc|, |s.pending|, |s.tpc|);
  }

  /** The sleep list lock of a waiter's CPU is free unless a waiter past it or a signaller has it. */
  lemma SleeperGoes(s: Sys, t: int)
    requires Inv(s) && Alone(s) && NoSignals(s) && 0 <= t < |s.pc| && s.pc[t].W2?
    requires forall x :: 0 <= x < |s.pc| ==> !s.pc[x].W3?
    ensures Can(s, WaitOn(t, 0))
  {
    hide Table, Waiting, Sleeping, Expiring, Waking, Balanced, EndsOnce, Relock, Without;
    var c := s.pc[t].cpu;
    assert PcOk(s.pc[t], |s.pc|, |s.pending|, |s.tpc|) && WaitsOnCpu(s.pc[t], c);
    Holder(s.slock, HeldSs(s.pc), TimerSs(s.tpc), c);
    assert s.slock[c] == Nobody;
  }

  /** A waiter's own queue lock is free unless a signaller or a timer past its callback has it. */
  lemma EarlyWaiterGoes(s: Sys, t: int)
    requires Inv(s) && NoSignals(s) && OnlyT2(s) && 0 <= t < |s.pc| && s.pc[t].W1?
    ensures Can(s, WaitOn(t, 0))
  {
    hide Table, Waiting, Sleeping, Waking, Balanced, EndsOnce, Relock, Without;
    assert PcOk(s.pc[t], |s.pc|, |s.pending|, |s.tpc|);
    Holder(s.qlock, HeldQs(s.pc), TimerQs(s.tpc), t);
    assert s.qlock[t] == Nobody;
  }

  /** A notification lock is free unless somebody waits, signals or times out under it. */
  lemma ExpiredGoes(s: Sys, c: int)
    requires Inv(s) && NoSignals(s) && OnlyT2(s) && 0 <= c < |s.tpc| && s.tpc[c].T2?
    requires forall t :: 0 <= t < |s.pc| ==> !Waits(s.pc[t])
    ensures Can(s, TimerOn(c, true))
  {
    hide Table, Waiting, Sleeping, Waking, Balanced, EndsOnce, Relock, Without;
    assert TpcOk(s.tpc[c], |s.pc|, |s.pending|);
    var n := s.pend[s.tpc[c].u];
    Holder(s.nlock, HeldNs(s.pc), TimerNs(s.tpc), n);
    assert s.nlock[n] == Nobody;
  }

  /** No deadlock: while a wait, a signal or a timer interrupt is under way, one of them can take its
  next step. */
  lemma NotStuck(s: Sys) returns (e: Step)
    requires Inv(s) && Alone(s) && Unfinished(s)
    ensures Can(s, e) && !Begins(e)
  {
    hide InvBut, Alone;
    SysShaped(s);
    if t :| 0 <= t < |s.pc| && Signals(s.pc[t]) {
      e := SignalOn(t);
    } else if c :| 0 <= c < |s.tpc| && (s.tpc[c].T1? || s.tpc[c].T3? || s.tpc[c].T4?) {
      TimerGoes(s, c);
      e := TimerOn(c, true);
    } else if t :| 0 <= t < |s.pc| && (s.pc[t].W3? || s.pc[t].W4?) {
      LateWaiterGoes(s, t);
      e := WaitOn(t, 0);
    } else if t :| 0 <= t < |s.pc| && s.pc[t].W2? {
      SleeperGoes(s, t);
      e := WaitOn(t, 0);
    } else if t :| 0 <= t < |s.pc| && s.pc[t].W1? {
      EarlyWaiterGoes(s, t);
      e := WaitOn(t, 0);
    } else {
      var c :| 0 <= c < |s.tpc| && s.tpc[c].T2?;
      ExpiredGoes(s, c);
      e := TimerOn(c, true);
    }
  }

  lemma SysShaped(s: Sys)
    requires Inv(s)
    ensures Shaped(s)
  {
  }

  // ---- and every step brings what is under way nearer to its end ----

  /** Steps left, a sleeper that is still to be put on a list included. */
  function Rank(p: Pc): nat {
    match p
    case Idle => 0
    case Blocked(_) => 0
    case W1(_, _, _, _) => 8
    case W2(_, _, _) => 7
    case W3(_, _) => 2
    case W4(_) => 1
    case S1(_) => 5
    case S2(_, _) => 4
    case S3(_, _, _) => 3
    case S4(_, _) => 2
  }

  function TimerRank(p: Tpc): nat {
    match p
    case T0 => 0
    case T1(_) => 1
    case T2(_, _) => 4
    case T3(_, _, _) => 3
    case T4(_, _) => 2
  }

  ghost function Sum(a: seq<nat>): nat {
    if a == [] then 0 else a[|a| - 1] + Sum(a[..|a| - 1])
  }

  lemma {:induction false} SumUpdate(a: seq<nat>, i: int, x: nat)
    requires 0 <= i < |a|
    ensures Sum(a[i := x]) + a[i] == Sum(a) + x
  {
    var n := |a| - 1;
    if i == n {
      assert a[i := x][..n] == a[..n];
    } else {
      assert a[i := x][..n] == a[..n][i := x];
      SumUpdate(a[..n], i, x);
    }
  }

  ghost function Ranks(pc: seq<Pc>): seq<nat> { seq(|pc|, i requires 0 <= i < |pc| => Rank(pc[i])) }
  ghost function TimerRanks(tpc: seq<Tpc>): seq<nat> { seq(|tpc|, i requires 0 <= i < |tpc| => TimerRank(tpc[i])) }
  ghost function Lengths4(l: seq<seq<int>>): seq<nat> { seq(|l|, i requires 0 <= i < |l| => 4 * |l[i]|) }

  /** A sleeper costs a timer four steps. */
  ghost function Work(s: Sys): nat { Sum(Ranks(s.pc)) + Sum(TimerRanks(s.tpc)) + Sum(Lengths4(s.sleepers)) }

  lemma RanksUpdate(pc: seq<Pc>, t: int, p: Pc)
    requires 0 <= t < |pc|
    ensures Sum(Ranks(pc[t := p])) + Rank(pc[t]) == Sum(Ranks(pc)) + Rank(p)
  {
    assert Ranks(pc[t := p]) == Ranks(pc)[t := Rank(p)];
    SumUpdate(Ranks(pc), t, Rank(p));
  }

  lemma TimerRanksUpdate(tpc: seq<Tpc>, c: int, p: Tpc)
    requires 0 <= c < |tpc|
    ensures Sum(TimerRanks(tpc[c := p])) + TimerRank(tpc[c]) == Sum(TimerRanks(tpc)) + TimerRank(p)
  {
    assert TimerRanks(tpc[c := p]) == TimerRanks(tpc)[c := TimerRank(p)];
    SumUpdate(TimerRanks(tpc), c, TimerRank(p));
  }

  lemma LengthsUpdate(l: seq<seq<int>>, c: int, m: seq<int>)
    requires 0 <= c < |l|
    ensures Sum(Lengths4(l[c := m])) + 4 * |l[c]| == Sum(Lengths4(l)) + 4 * |m|
  {
    assert Lengths4(l[c := m]) == Lengths4(l)[c := 4 * |m|];
    SumUpdate(Lengths4(l), c, 4 * |m|);
  }

  lemma WaitProgress(s: Sys, t: int, k: int)
    requires Inv(s) && Can(s, WaitOn(t, k))
    ensures Work(WaitStep(s, t, k)) < Work(s)
  {
    hide Locks, Waiting, Sleeping, Expiring, Waking, Balanced, EndsOnce, CanGo, Relock, Sum, Ranks, TimerRanks,
      Lengths4;
    assert PcOk(s.pc[t], |s.pc|, |s.pending|, |s.tpc|);
    var r := WaitStep(s, t, k);
    RanksUpdate(s.pc, t, r.pc[t]);
    if s.pc[t].W2? && s.pc[t].timed {
      var c := s.pc[t].cpu;
      LengthsUpdate(s.sleepers, c, r.sleepers[c]);
    }
  }

  lemma SignalProgress(s: Sys, t: int)
    requires Inv(s) && Can(s, SignalOn(t))
    ensures Work(SignalStep(s, t)) < Work(s)
  {
    hide Locks, Waiting, Sleeping, Expiring, Waking, Balanced, EndsOnce, CanGo, Relock, Sum, Ranks, TimerRanks,
      Lengths4, Without;
    assert PcOk(s.pc[t], |s.pc|, |s.pending|, |s.tpc|);
    var r := SignalStep(s, t);
    if s.pc[t].S4? {
      var u := s.pc[t].u;
      TargetBlocked(s, t);
      RanksUpdate(s.pc, u, Idle);
      RanksUpdate(s.pc[u := Idle], t, Idle);
    } else {
      RanksUpdate(s.pc, t, r.pc[t]);
      if r.pc[t].S3? {
        var c := s.cpu[s.pc[t].u];
        WithoutShorter(s.sleepers[c], s.pc[t].u);
        LengthsUpdate(s.sleepers, c, r.sleepers[c]);
      }
    }
  }

  lemma TimerProgress(s: Sys, c: int, done: bool)
    requires Inv(s) && Can(s, TimerOn(c, done))
    ensures Work(TimerStep(s, c, done)) < Work(s)
  {
    hide Locks, Waiting, Sleeping, Expiring, Waking, Balanced, EndsOnce, CanGoTimer, Relock, Sum, Ranks, TimerRanks,
      Lengths4, Without;
    assert TpcOk(s.tpc[c], |s.pc|, |s.pending|);
    var r := TimerStep(s, c, done);
    TimerRanksUpdate(s.tpc, c, r.tpc[c]);
    if s.tpc[c].T1? && r.tpc[c].T2? { LengthsUpdate(s.sleepers, c, s.sleepers[c][1..]); }
    if s.tpc[c].T3? {
      CallbackFindsWaiting(s, c);
      RanksUpdate(s.pc, s.tpc[c].u, Idle);
    }
  }

  /** So without new calls and interrupts everything under way ends, in at most `Work(s)` steps. */
  lemma Progress(s: Sys, e: Step)
    requires Inv(s) && Can(s, e) && !Begins(e)
    ensures Work(Do(s, e)) < Work(s)
  {
    hide InvBut, WaitStep, SignalStep, TimerStep, Work, CanGo, CanGoTimer;
    match e {
      case WaitOn(t, k) => WaitProgress(s, t, k);
      case SignalOn(t) => SignalProgress(s, t);
      case TimerOn(c, done) => TimerProgress(s, c, done);
    }
  }

  // ---- interrupts must be off ----

  /** A thread holds its notification and waits for the sleep list of its CPU; the timer of the same
  CPU holds that list and waits for the notification. */
  ghost function Embrace(): Sys {
    Sys([W2(0, true, 0), Blocked(0)], [false, true], [0, 0], [0, 0], [Thr(0), Tim(0)],
      [0], [[1, 0]], [Thr(0)], [[]], [Tim(0)], [T2(1, 0)], [0], [0], [1, 1], [0, 0], [0])
  }

  lemma EmbracePoints()
    ensures var s := Embrace();
      && |s.pc| == |s.cb| == |s.pend| == |s.cpu| == |s.qlock| == |s.begun| == |s.ended| == 2
      && |s.pending| == |s.waiters| == |s.nlock| == |s.accepted| == |s.success| == |s.wraps| == 1
      && |s.sleepers| == |s.slock| == |s.tpc| == 1
      && s.pc[0] == W2(0, true, 0) && s.pc[1] == Blocked(0) && s.tpc[0] == T2(1, 0)
      && s.qlock[0] == Thr(0) && s.qlock[1] == Tim(0) && s.nlock[0] == Thr(0) && s.slock[0] == Tim(0)
  {
  }

  lemma EmbraceData()
    ensures var s := Embrace();
      && !s.cb[0] && s.cb[1] && s.pend == [0, 0] && s.cpu == [0, 0] && s.pending[0] == 0 && s.waiters[0] == [1, 0]
         && s.sleepers[0] == []
      && s.accepted[0] == s.success[0] == s.wraps[0] == 0 && s.begun == [1, 1] && s.ended == [0, 0]
  {
  }

  lemma EmbraceShaped()
    ensures Shaped(Embrace())
  {
    hide Embrace;
    EmbracePoints();
    EmbraceData();
  }

  /** Thread 1 has done a timed wait up to `p`; thread 0 and the timer have done nothing. */
  ghost function OneWaits(p: Pc, q: Actor, waiters: seq<int>, n: Actor, sleepers: seq<int>, l: Actor): Sys {
    Sys([Idle, p], [false, sleepers == [1]], [0, 0], [0, 0], [Nobody, q],
      [0], [waiters], [n], [sleepers], [l], [T0], [0], [0], [0, |waiters|], [0, 0], [0])
  }

  /** Thread 1 is blocked; thread 0 does the same up to `p`, and the timer of the CPU is at `t`. */
  ghost function BothWait(p: Pc, q: Actor, waiters: seq<int>, n: Actor, l: Actor, t: Tpc): Sys
    requires waiters != []
  {
    Sys([p, Blocked(0)], [false, true], [0, 0], [0, 0], [q, Nobody],
      [0], [waiters], [n], [[1]], [l], [t], [0], [0], [|waiters| - 1, 1], [0, 0], [0])
  }

  const WAIT := W1(0, true, true, 0)

  ghost const BEFORE := OneWaits(Idle, Nobody, [], Nobody, [], Nobody)
  ghost const BEGUN := OneWaits(WAIT, Nobody, [], Thr(1), [], Nobody)
  ghost const LISTED := OneWaits(W2(0, true, 0), Thr(1), [1], Thr(1), [], Nobody)
  ghost const SLEEPING := OneWaits(W3(0, 0), Thr(1), [1], Thr(1), [1], Thr(1))
  ghost const UNLOCKED := OneWaits(W4(0), Thr(1), [1], Thr(1), [1], Nobody)
  ghost const BLOCKED := OneWaits(Blocked(0), Nobody, [1], Nobody, [1], Nobody)
  ghost const BEGUN_TOO := BothWait(WAIT, Nobody, [1], Thr(0), Nobody, T0)
  ghost const LISTED_TOO := BothWait(W2(0, true, 0), Thr(0), [1, 0], Thr(0), Nobody, T0)
  ghost const INTERRUPTED := BothWait(W2(0, true, 0), Thr(0), [1, 0], Thr(0), Tim(0), T1(0))

  lemma OneShaped(p: Pc, q: Actor, waiters: seq<int>, n: Actor, sleepers: seq<int>, l: Actor)
    requires PcOk(p, 2, 1, 1)
    ensures Shaped(OneWaits(p, q, waiters, n, sleepers, l))
  {
  }

  lemma BothShaped(p: Pc, q: Actor, waiters: seq<int>, n: Actor, l: Actor, t: Tpc)
    requires PcOk(p, 2, 1, 1) && TpcOk(t, 2, 1) && waiters != []
    ensures Shaped(BothWait(p, q, waiters, n, l, t))
  {
  }

  ghost predicate Leads(s: Sys, e: Step, r: Sys) { Shaped(s) && Can(s, e) && Do(s, e) == r }

  lemma Same(a: Sys, b: Sys)
    requires a.pc == b.pc && a.cb == b.cb && a.pend == b.pend && a.cpu == b.cpu && a.qlock == b.qlock
    requires a.pending == b.pending && a.waiters == b.waiters && a.nlock == b.nlock
    requires a.sleepers == b.sleepers && a.slock == b.slock && a.tpc == b.tpc
    requires a.accepted == b.accepted && a.success == b.success && a.wraps == b.wraps
    requires a.begun == b.begun && a.ended == b.ended
    ensures a == b
  {
  }

  lemma FirstBegins()
    ensures Leads(BEFORE, BeginWait(1, 0, true, true, 0), BEGUN)
  {
    hide Shaped;
    OneShaped(Idle, Nobody, [], Nobody, [], Nobody);
    Same(Do(BEFORE, BeginWait(1, 0, true, true, 0)), BEGUN);
  }

  lemma FirstLists()
    ensures Leads(BEGUN, WaitOn(1, 0), LISTED)
  {
    hide Shaped;
    OneShaped(WAIT, Nobody, [], Thr(1), [], Nobody);
    assert [] + [1] == [1];
    Same(Do(BEGUN, WaitOn(1, 0)), LISTED);
  }

  lemma FirstSleeps()
    ensures Leads(LISTED, WaitOn(1, 0), SLEEPING)
  {
    hide Shaped;
    OneShaped(W2(0, true, 0), Thr(1), [1], Thr(1), [], Nobody);
    assert [][..0] + [1] + [][0..] == [1];
    Same(Do(LISTED, WaitOn(1, 0)), SLEEPING);
  }

  lemma FirstUnlocks()
    ensures Leads(SLEEPING, WaitOn(1, 0), UNLOCKED)
  {
    hide Shaped;
    OneShaped(W3(0, 0), Thr(1), [1], Thr(1), [1], Thr(1));
    Same(Do(SLEEPING, WaitOn(1, 0)), UNLOCKED);
  }

  lemma FirstBlocks()
    ensures Leads(UNLOCKED, WaitOn(1, 0), BLOCKED)
  {
    hide Shaped;
    OneShaped(W4(0), Thr(1), [1], Thr(1), [1], Nobody);
    Same(Do(UNLOCKED, WaitOn(1, 0)), BLOCKED);
  }

  lemma SecondBegins()
    ensures Leads(BLOCKED, BeginWait(0, 0, true, true, 0), BEGUN_TOO)
  {
    hide Shaped;
    OneShaped(Blocked(0), Nobody, [1], Nobody, [1], Nobody);
    Same(Do(BLOCKED, BeginWait(0, 0, true, true, 0)), BEGUN_TOO);
  }

  lemma SecondLists()
    ensures Leads(BEGUN_TOO, WaitOn(0, 0), LISTED_TOO)
  {
    hide Shaped;
    BothShaped(WAIT, Nobody, [1], Thr(0), Nobody, T0);
    assert [1] + [0] == [1, 0];
    Same(Do(BEGUN_TOO, WaitOn(0, 0)), LISTED_TOO);
  }

  lemma TimerBegins()
    ensures Leads(LISTED_TOO, BeginTimer(0, 0), INTERRUPTED)
  {
    hide Shaped;
    BothShaped(W2(0, true, 0), Thr(0), [1, 0], Thr(0), Nobody, T0);
    Same(Do(LISTED_TOO, BeginTimer(0, 0)), INTERRUPTED);
  }

  lemma TimerTakes()
    ensures Leads(INTERRUPTED, TimerOn(0, false), Embrace())
  {
    hide Shaped;
    BothShaped(W2(0, true, 0), Thr(0), [1, 0], Thr(0), Tim(0), T1(0));
    assert [1][1..] == [];
    Same(Do(INTERRUPTED, TimerOn(0, false)), Embrace());
  }

  lemma BeforeStarts()
    ensures Start(BEFORE) && Reaches(BEFORE, [], BEFORE)
  {
  }

  lemma Onward(s: Sys, es: seq<Step>, q: Sys, e: Step, r: Sys) returns (fs: seq<Step>)
    requires Reaches(s, es, q) && Leads(q, e, r)
    ensures Reaches(s, fs, r)
  {
    hide Reaches, Shaped, Can, Do;
    ReachesMore(s, es, q, e);
    fs := es + [e];
  }

  /** Without the mask a run gets there: thread 1 waits with a timeout, then thread 0 does on the same
  CPU, and its timer comes in the middle. */
  lemma EmbraceReached() returns (s: Sys, es: seq<Step>)
    ensures Start(s) && Reaches(s, es, Embrace())
    ensures Inv(Embrace()) && Unfinished(Embrace()) && !Alone(Embrace())
  {
    hide OneWaits, BothWait, Leads, Embrace, Reaches, Start, InvBut;
    BeforeStarts();
    s, es := BEFORE, [];
    FirstBegins();
    es := Onward(s, es, BEFORE, BeginWait(1, 0, true, true, 0), BEGUN);
    FirstLists();
    es := Onward(s, es, BEGUN, WaitOn(1, 0), LISTED);
    FirstSleeps();
    es := Onward(s, es, LISTED, WaitOn(1, 0), SLEEPING);
    FirstUnlocks();
    es := Onward(s, es, SLEEPING, WaitOn(1, 0), UNLOCKED);
    FirstBlocks();
    es := Onward(s, es, UNLOCKED, WaitOn(1, 0), BLOCKED);
    SecondBegins();
    es := Onward(s, es, BLOCKED, BeginWait(0, 0, true, true, 0), BEGUN_TOO);
    SecondLists();
    es := Onward(s, es, BEGUN_TOO, WaitOn(0, 0), LISTED_TOO);
    TimerBegins();
    es := Onward(s, es, LISTED_TOO, BeginTimer(0, 0), INTERRUPTED);
    TimerTakes();
    es := Onward(s, es, INTERRUPTED, TimerOn(0, false), Embrace());
    EveryRun(s, es, Embrace());
    EmbracePoints();
    assert WaitsOnCpu(Embrace().pc[0], 0);
  }

  /** Then neither can go on. */
  lemma EmbraceIsStuck(e: Step)
    requires !Begins(e)
    ensures Shaped(Embrace()) && !Can(Embrace(), e)
  {
    hide Embrace, Shaped, Relock;
    EmbraceShaped();
    EmbracePoints();
    EmbraceData();
  }
}
