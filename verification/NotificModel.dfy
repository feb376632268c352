/**
Notifications against timeouts (`notification.c`, `timer.c`), as interleaved lock steps.

Threads wait and signal; the timer interrupt of each CPU ends timed waits. A step runs from one
lock operation to the next, so the steps of any number of threads and timers interleave. The
locks held at each program point are fixed (`HeldN`, `HeldQ`, `HeldS` and the timer's), and a
step takes and releases what its two points differ by. `lock` is a step that is possible only
when the lock is free; `try_lock` is always possible and may fail.
*/
module NotificModel {
  import opened Lists

  datatype Actor = Nobody | Thr(t: int) | Tim(c: int)

  /** How far a thread is. `W`: in `wait_notific`, `S`: in `signal_notific`. */
  datatype Pc =
    | Idle
    | W1(n: int, block: bool, timed: bool, cpu: int)  // holds the notification lock
    | W2(n: int, timed: bool, cpu: int)               // ... and its own queue lock; on the waiting list
    | W3(n: int, cpu: int)                            // ... and the sleep list lock; on the sleep list
    | W4(n: int)                                      // about to unlock
    | Blocked(n: int)                                 // waits
    | S1(n: int)                                      // holds the notification lock
    | S2(n: int, u: int)                              // ... and the queue lock of the first waiter
    | S3(n: int, u: int, cpu: int)                    // ... and its sleep list lock
    | S4(n: int, u: int)                              // no timeout can come any more

  /** How far a timer interrupt is. */
  datatype Tpc =
    | T0
    | T1(now: int)                    // holds its sleep list lock
    | T2(u: int, now: int)            // ... and the queue lock of an expired sleeper
    | T3(u: int, n: int, now: int)    // ... and the lock of the notification it waits for
    | T4(u: int, now: int)            // the callback is done

  datatype Sys = Sys(
    pc: seq<Pc>,              // per thread
    cb: seq<bool>,            // per thread: sleep_state.cb is set
    pend: seq<int>,           // per thread: sleep_state.pending_notific
    cpu: seq<int>,            // per thread: sleep_state.sleep_cpu
    qlock: seq<Actor>,        // per thread: sleep_state.queue_lock
    pending: seq<nat>,        // per notification: not_delivered_notifc_count
    waiters: seq<seq<int>>,   // per notification: waiting_threads
    nlock: seq<Actor>,        // per notification: notifc_lock
    sleepers: seq<seq<int>>,  // per CPU: sleep_list
    slock: seq<Actor>,        // per CPU: sleep_list_lock
    tpc: seq<Tpc>,            // per CPU
    accepted: seq<nat>,       // per notification: signals that returned 0
    success: seq<nat>,        // per notification: waits that returned 0
    begun: seq<nat>,          // per thread: waits that blocked
    ended: seq<nat>,          // per thread: ends of blocked waits, by signal or timeout
    wraps: seq<nat>)          // per notification: how often the 32-bit count of pending signals wrapped around

  const U32 := 0x1_0000_0000

  // ---- locks ----

  /** The lock table agrees with what every thread and timer holds (-1 for nothing). */
  ghost predicate Table(lock: seq<Actor>, heldT: seq<int>, heldC: seq<int>) {
    && (forall t :: 0 <= t < |heldT| ==> heldT[t] == -1 || (0 <= heldT[t] < |lock| && lock[heldT[t]] == Thr(t)))
    && (forall c :: 0 <= c < |heldC| ==> heldC[c] == -1 || (0 <= heldC[c] < |lock| && lock[heldC[c]] == Tim(c)))
    && (forall n :: 0 <= n < |lock| && lock[n].Thr? ==> 0 <= lock[n].t < |heldT| && heldT[lock[n].t] == n)
    && (forall n :: 0 <= n < |lock| && lock[n].Tim? ==> 0 <= lock[n].c < |heldC| && heldC[lock[n].c] == n)
  }

  /** An actor lets go of lock `from` and takes lock `to`. */
  function Relock(lock: seq<Actor>, from: int, to: int, a: Actor): seq<Actor> {
    if from == to then lock
    else
      var l := if 0 <= from < |lock| then lock[from := Nobody] else lock;
      if 0 <= to < |l| then l[to := a] else l
  }

  /** A lock can be taken when it is free or held already. */
  ghost predicate Free(lock: seq<Actor>, from: int, to: int) {
    to == -1 || to == from || (0 <= to < |lock| && lock[to] == Nobody)
  }

  function HeldN(p: Pc): int { if p == Idle || p.Blocked? then -1 else p.n }

  function HeldQ(t: int, p: Pc): int {
    if p.W2? || p.W3? || p.W4? then t else if p.S2? || p.S3? || p.S4? then p.u else -1
  }

  function HeldS(p: Pc): int { if p.W3? || p.S3? then p.cpu else -1 }

  function TimerN(p: Tpc): int { if p.T3? then p.n else -1 }

  function TimerQ(p: Tpc): int { if p.T2? || p.T3? || p.T4? then p.u else -1 }

  function TimerS(c: int, p: Tpc): int { if p == T0 then -1 else c }

  ghost function HeldNs(pc: seq<Pc>): seq<int> { seq(|pc|, i requires 0 <= i < |pc| => HeldN(pc[i])) }
  ghost function HeldQs(pc: seq<Pc>): seq<int> { seq(|pc|, i requires 0 <= i < |pc| => HeldQ(i, pc[i])) }
  ghost function HeldSs(pc: seq<Pc>): seq<int> { seq(|pc|, i requires 0 <= i < |pc| => HeldS(pc[i])) }
  ghost function TimerNs(tpc: seq<Tpc>): seq<int> { seq(|tpc|, i requires 0 <= i < |tpc| => TimerN(tpc[i])) }
  ghost function TimerQs(tpc: seq<Tpc>): seq<int> { seq(|tpc|, i requires 0 <= i < |tpc| => TimerQ(tpc[i])) }
  ghost function TimerSs(tpc: seq<Tpc>): seq<int> { seq(|tpc|, i requires 0 <= i < |tpc| => TimerS(i, tpc[i])) }

  ghost predicate Locks(s: Sys) {
    && Table(s.nlock, HeldNs(s.pc), TimerNs(s.tpc))
    && Table(s.qlock, HeldQs(s.pc), TimerQs(s.tpc))
    && Table(s.slock, HeldSs(s.pc), TimerSs(s.tpc))
  }

  // ---- shape ----

  ghost predicate PcOk(p: Pc, threads: int, notifs: int, cpus: int) {
    && (p != Idle ==> 0 <= p.n < notifs)
    && (p.W1? || p.W2? || p.W3? || p.S3? ==> 0 <= p.cpu < cpus)
    && (p.S2? || p.S3? || p.S4? ==> 0 <= p.u < threads)
  }

  ghost predicate TpcOk(p: Tpc, threads: int, notifs: int) {
    && (p.T2? || p.T3? || p.T4? ==> 0 <= p.u < threads)
    && (p.T3? ==> 0 <= p.n < notifs)
  }

  ghost predicate Shaped(s: Sys) {
    && |s.pc| == |s.cb| == |s.pend| == |s.cpu| == |s.qlock| == |s.begun| == |s.ended|
    && |s.pending| == |s.waiters| == |s.nlock| == |s.accepted| == |s.success| == |s.wraps|
    && |s.sleepers| == |s.slock| == |s.tpc|
    && (forall t :: 0 <= t < |s.pc| ==> PcOk(s.pc[t], |s.pc|, |s.pending|, |s.tpc|))
    && (forall t :: 0 <= t < |s.pc| ==> 0 <= s.pend[t] < |s.pending| && 0 <= s.cpu[t] < |s.tpc|)
    && (forall c :: 0 <= c < |s.tpc| ==> TpcOk(s.tpc[c], |s.pc|, |s.pending|))
  }

  // ---- lists ----

  /** The notification a thread waits for, on whose waiting list it is: its state is TS_WAITING. */
  function WaitsOn(p: Pc): int {
    if p.W2? || p.W3? || p.W4? || p.Blocked? then p.n else -1
  }

  ghost predicate Waiting(pc: seq<Pc>, waiters: seq<seq<int>>) {
    && (forall n :: 0 <= n < |waiters| ==> NoDup(waiters[n]) && forall t <- waiters[n] :: 0 <= t < |pc|)
    && (forall n, t :: 0 <= n < |waiters| && 0 <= t < |pc| ==> (t in waiters[n] <==> WaitsOn(pc[t]) == n))
  }

  /** The notification whose wait a timeout can end. */
  function TimedOn(p: Pc): int {
    if p.W3? || p.W4? || p.Blocked? then p.n else -1
  }

  /** A thread is on the sleep list of its CPU while a timeout is set, until a timer takes it. */
  ghost predicate Sleeping(pc: seq<Pc>, sleepers: seq<seq<int>>, cb: seq<bool>, pend: seq<int>, cpu: seq<int>,
    qlock: seq<Actor>)
  {
    && |pc| == |cb| == |pend| == |cpu| == |qlock|
    && (forall c :: 0 <= c < |sleepers| ==> NoDup(sleepers[c]) && forall t <- sleepers[c] :: 0 <= t < |pc|)
    && (forall c :: 0 <= c < |sleepers| ==> forall t <- sleepers[c] :: Sleeper(pc, cb, pend, cpu, qlock, c, t))
    && (forall t :: 0 <= t < |pc| && cb[t] ==> qlock[t].Tim? || (0 <= cpu[t] < |sleepers| && t in sleepers[cpu[t]]))
    && (forall t :: 0 <= t < |pc| && qlock[t].Tim? ==> cb[t])
  }

  ghost predicate Sleeper(pc: seq<Pc>, cb: seq<bool>, pend: seq<int>, cpu: seq<int>, qlock: seq<Actor>, c: int, t: int)
    requires |pc| == |cb| == |pend| == |cpu| == |qlock|
  {
    0 <= t < |pc| && cpu[t] == c && cb[t] && TimedOn(pc[t]) == pend[t] && !qlock[t].Tim?
  }

  /** The timer callback finds its thread waiting (timer `y` apart). */
  ghost predicate Expiring(tpc: seq<Tpc>, pc: seq<Pc>, pend: seq<int>, y: int) {
    && |pc| == |pend|
    && (forall c :: 0 <= c < |tpc| && c != y && tpc[c].T2? ==>
       0 <= tpc[c].u < |pc| && pc[tpc[c].u] == Blocked(pend[tpc[c].u]))
    && (forall c :: 0 <= c < |tpc| && c != y && tpc[c].T3? ==>
       0 <= tpc[c].u < |pc| && pc[tpc[c].u] == Blocked(tpc[c].n))
  }

  predicate Signalling(p: Pc) { p.S2? || p.S3? || p.S4? }

  /** A signaller works on the first waiter, and past S2 no timeout is left (thread `x` apart). */
  ghost predicate Waking(pc: seq<Pc>, waiters: seq<seq<int>>, cb: seq<bool>, x: int) {
    && |pc| == |cb|
    && (forall t :: 0 <= t < |pc| && t != x && Signalling(pc[t]) ==> First(waiters, pc[t].n, pc[t].u))
    && (forall t :: 0 <= t < |pc| && t != x && (pc[t].S3? || pc[t].S4?) ==> 0 <= pc[t].u < |cb| && !cb[pc[t].u])
  }

  ghost predicate First(waiters: seq<seq<int>>, n: int, u: int) {
    0 <= n < |waiters| && waiters[n] != [] && waiters[n][0] == u
  }

  /** Signals are kept only while nobody waits, and none is made up; 2^32 are lost when the count
  wraps around. */
  ghost predicate Balanced(pending: seq<nat>, waiters: seq<seq<int>>, accepted: seq<nat>, success: seq<nat>,
    wraps: seq<nat>)
  {
    && |pending| == |waiters| == |accepted| == |success| == |wraps|
    && (forall n :: 0 <= n < |pending| ==> pending[n] < U32 && (pending[n] == 0 || waiters[n] == []))
    && (forall n :: 0 <= n < |pending| ==> accepted[n] == success[n] + pending[n] + U32 * wraps[n])
  }

  /** A blocked wait ends once. */
  ghost predicate EndsOnce(pc: seq<Pc>, begun: seq<nat>, ended: seq<nat>) {
    && |pc| == |begun| == |ended|
    && (forall t :: 0 <= t < |pc| ==> begun[t] == ended[t] + if WaitsOn(pc[t]) == -1 then 0 else 1)
  }

  /** The invariant, apart from what thread `x` and timer `y` are about to set right. */
  ghost predicate InvBut(s: Sys, x: int, y: int) {
    && Shaped(s) && Locks(s)
    && Waiting(s.pc, s.waiters) && Sleeping(s.pc, s.sleepers, s.cb, s.pend, s.cpu, s.qlock)
    && Expiring(s.tpc, s.pc, s.pend, y) && Waking(s.pc, s.waiters, s.cb, x)
    && Balanced(s.pending, s.waiters, s.accepted, s.success, s.wraps) && EndsOnce(s.pc, s.begun, s.ended)
  }

  ghost predicate Inv(s: Sys) { InvBut(s, -1, -1) }

  // ---- steps ----

  /** Thread `t` goes to point `p`, changing its locks accordingly. */
  function Go(s: Sys, t: int, p: Pc): Sys
    requires 0 <= t < |s.pc|
  {
    s.(pc := s.pc[t := p],
      nlock := Relock(s.nlock, HeldN(s.pc[t]), HeldN(p), Thr(t)),
      qlock := Relock(s.qlock, HeldQ(t, s.pc[t]), HeldQ(t, p), Thr(t)),
      slock := Relock(s.slock, HeldS(s.pc[t]), HeldS(p), Thr(t)))
  }

  /** The locks that `t` needs at point `p` are free or its own. */
  ghost predicate CanGo(s: Sys, t: int, p: Pc)
    requires 0 <= t < |s.pc|
  {
    && Free(s.nlock, HeldN(s.pc[t]), HeldN(p))
    && Free(s.qlock, HeldQ(t, s.pc[t]), HeldQ(t, p))
    && Free(s.slock, HeldS(s.pc[t]), HeldS(p))
  }

  function GoTimer(s: Sys, c: int, p: Tpc): Sys
    requires 0 <= c < |s.tpc|
  {
    s.(tpc := s.tpc[c := p],
      nlock := Relock(s.nlock, TimerN(s.tpc[c]), TimerN(p), Tim(c)),
      qlock := Relock(s.qlock, TimerQ(s.tpc[c]), TimerQ(p), Tim(c)),
      slock := Relock(s.slock, TimerS(c, s.tpc[c]), TimerS(c, p), Tim(c)))
  }

  ghost predicate CanGoTimer(s: Sys, c: int, p: Tpc)
    requires 0 <= c < |s.tpc|
  {
    && Free(s.nlock, TimerN(s.tpc[c]), TimerN(p))
    && Free(s.qlock, TimerQ(s.tpc[c]), TimerQ(p))
    && Free(s.slock, TimerS(c, s.tpc[c]), TimerS(c, p))
  }

  datatype Step =
    | BeginWait(t: int, n: int, block: bool, timed: bool, cpu: int)
    | BeginSignal(t: int, n: int)
    | WaitOn(t: int, k: int)       // a waiting thread goes on; k is the place in the sleep list
    | SignalOn(t: int)             // a signalling thread goes on
    | BeginTimer(c: int, now: int)
    | TimerOn(c: int, done: bool)  // a timer interrupt goes on; done: nobody else has expired

  /** `wait_notific` from point to point. */
  ghost function WaitStep(s: Sys, t: int, k: int): Sys
    requires 0 <= t < |s.pc| && Shaped(s) && (s.pc[t].W1? || s.pc[t].W2? || s.pc[t].W3? || s.pc[t].W4?)
  {
    var p := s.pc[t];
    match p
    case W1(n, block, timed, cpu) =>
      if s.pending[n] > 0 then
        Go(s.(pending := s.pending[n := s.pending[n] - 1], success := s.success[n := s.success[n] + 1]), t, Idle)
      else if block then
        Go(s.(waiters := s.waiters[n := s.waiters[n] + [t]], begun := s.begun[t := s.begun[t] + 1]),
          t, W2(n, timed, cpu))
      else Go(s, t, Idle)
    case W2(n, timed, cpu) =>
      if timed && 0 <= k <= |s.sleepers[cpu]| then
        Go(s.(sleepers := s.sleepers[cpu := s.sleepers[cpu][..k] + [t] + s.sleepers[cpu][k..]],
          cb := s.cb[t := true], pend := s.pend[t := n], cpu := s.cpu[t := cpu]), t, W3(n, cpu))
      else Go(s, t, W4(n))
    case W3(n, cpu) => Go(s, t, W4(n))
    case W4(n) => Go(s, t, Blocked(n))
  }

  /** The first waiter of a notification. */
  ghost function Head(s: Sys, n: int): int
    requires 0 <= n < |s.waiters| && s.waiters[n] != []
  {
    s.waiters[n][0]
  }

  /** `not_delivered_notifc_count++` */
  ghost function Kept(s: Sys, n: int): Sys
    requires 0 <= n < |s.pending| == |s.accepted| == |s.wraps|
  {
    s.(pending := s.pending[n := (s.pending[n] + 1) % U32], accepted := s.accepted[n := s.accepted[n] + 1],
      wraps := s.wraps[n := s.wraps[n] + if s.pending[n] + 1 == U32 then 1 else 0])
  }

  /** `signal_notific` from point to point. */
  ghost function SignalStep(s: Sys, t: int): Sys
    requires Shaped(s) && 0 <= t < |s.pc| && (s.pc[t].S1? || Signalling(s.pc[t]))
  {
    var n := s.pc[t].n;
    match s.pc[t]
    case S1(_) =>
      if s.pending[n] > 0 || s.waiters[n] == [] then
        Go(Kept(s, n), t, Idle)
      else if CanGo(s, t, S2(n, Head(s, n))) then Go(s, t, S2(n, Head(s, n)))
      else Go(s, t, Idle)
    case S2(_, u) =>
      var c := s.cpu[u];
      if !s.cb[u] then Go(s, t, S4(n, u))
      else if CanGo(s, t, S3(n, u, c)) then
        Go(s.(sleepers := s.sleepers[c := Without(s.sleepers[c], u)], cb := s.cb[u := false]), t, S3(n, u, c))
      else Go(s, t, Idle)
    case S3(_, u, _) => Go(s, t, S4(n, u))
    case S4(_, u) =>
      Go(Wake(s, u, n).(accepted := s.accepted[n := s.accepted[n] + 1], success := s.success[n := s.success[n] + 1]),
        t, Idle)
  }

  /** A blocked thread leaves the waiting list and becomes ready. */
  ghost function Wake(s: Sys, u: int, n: int): Sys
    requires 0 <= u < |s.pc| == |s.ended| && 0 <= n < |s.waiters|
  {
    Go(s.(waiters := s.waiters[n := Without(s.waiters[n], u)], ended := s.ended[u := s.ended[u] + 1]), u, Idle)
  }

  /** `handle_timer_irq` and `notific_timer_cb` from point to point. */
  ghost function TimerStep(s: Sys, c: int, done: bool): Sys
    requires Shaped(s) && 0 <= c < |s.tpc| && s.tpc[c] != T0
  {
    var p := s.tpc[c];
    match p
    case T1(now) =>
      if done || s.sleepers[c] == [] then GoTimer(s, c, T0)
      else GoTimer(s.(sleepers := s.sleepers[c := s.sleepers[c][1..]]), c, T2(s.sleepers[c][0], now))
    case T2(u, now) => GoTimer(s, c, T3(u, s.pend[u], now))
    case T3(u, n, now) =>
      if WaitsOn(s.pc[u]) == -1 then GoTimer(s, c, T4(u, now)) else GoTimer(Wake(s, u, n), c, T4(u, now))
    case T4(u, now) => GoTimer(s.(cb := s.cb[u := false]), c, T1(now))
  }

  /** When a step is possible: a thread or timer that waits for a lock is not. */
  ghost predicate Can(s: Sys, e: Step)
    requires Shaped(s)
  {
    match e
    case BeginWait(t, n, block, timed, cpu) =>
      0 <= t < |s.pc| && 0 <= n < |s.pending| && 0 <= cpu < |s.tpc| && s.pc[t] == Idle
        && CanGo(s, t, W1(n, block, timed, cpu))
    case BeginSignal(t, n) => 0 <= t < |s.pc| && 0 <= n < |s.pending| && s.pc[t] == Idle && CanGo(s, t, S1(n))
    case WaitOn(t, k) =>
      && 0 <= t < |s.pc| && (s.pc[t].W1? || s.pc[t].W2? || s.pc[t].W3? || s.pc[t].W4?)
      && (s.pc[t].W2? && s.pc[t].timed ==> 0 <= k <= |s.sleepers[s.pc[t].cpu]|)
      && CanGo(s, t, WaitStep(s, t, k).pc[t])
    case SignalOn(t) => 0 <= t < |s.pc| && (s.pc[t].S1? || Signalling(s.pc[t]))
    case BeginTimer(c, now) => 0 <= c < |s.tpc| && s.tpc[c] == T0 && CanGoTimer(s, c, T1(now))
    case TimerOn(c, done) => 0 <= c < |s.tpc| && s.tpc[c] != T0 && CanGoTimer(s, c, TimerStep(s, c, done).tpc[c])
  }

  ghost function Do(s: Sys, e: Step): Sys
    requires Shaped(s) && Can(s, e)
  {
    match e
    case BeginWait(t, n, block, timed, cpu) => Go(s, t, W1(n, block, timed, cpu))
    case BeginSignal(t, n) => Go(s, t, S1(n))
    case WaitOn(t, k) => WaitStep(s, t, k)
    case SignalOn(t) => SignalStep(s, t)
    case BeginTimer(c, now) => GoTimer(s, c, T1(now))
    case TimerOn(c, done) => TimerStep(s, c, done)
  }
}
