/**
Inter-CPU transactions (`ipi.c`) over any number of CPUs and any interleaving.

A CPU sends by locking the target's buffer, filling it, starting the transaction and waiting for
its end. While it waits, in `prepare_ipi_tx` or `wait_finish_ipi_tx`, it serves its own buffer.
*/
module Ipi {

  const NONE := -1

  datatype Tx = Tx(id: nat, from: int, to: int, vector: int, args: seq<int>)

  /** How far a CPU is with sending. */
  datatype Pc =
    | Idle                             // interrupts enabled
    | Prepare(to: int)                 // in prepare_ipi_tx
    | Filling(to: int)                 // holds the target's lock, sets arguments
    | Waiting(to: int, tx: Tx)         // in wait_finish_ipi_tx

  datatype Sys = Sys(
    lock: seq<int>,                // per CPU: who holds its buffer
    finish: seq<bool>,             // per CPU
    vector: seq<int>,              // per CPU
    args: seq<seq<int>>,           // per CPU
    busy: seq<bool>,               // per CPU: inside arch_handle_ipi
    pc: seq<Pc>,                   // per CPU
    started: set<Tx>,
    handled: multiset<Tx>,
    next: nat)

  ghost predicate C(s: Sys, c: int) { 0 <= c < |s.pc| }

  ghost predicate Shaped(s: Sys) {
    |s.pc| == |s.lock| == |s.finish| == |s.vector| == |s.args| == |s.busy|
  }

  /** A sender holds the lock of its target; a waiting one finds its data there until the target is
  done, and is handled once by then. */
  ghost predicate SenderOk(s: Sys, c: int)
    requires Shaped(s) && C(s, c)
  {
    match s.pc[c]
    case Idle => true
    case Prepare(t) => C(s, t)
    case Filling(t) => C(s, t) && s.lock[t] == c && s.finish[t]
    case Waiting(t, tx) =>
      && C(s, t) && s.lock[t] == c && tx in s.started && tx.id < s.next && tx.from == c && tx.to == t
      && (!s.finish[t] ==> s.vector[t] == tx.vector && s.args[t] == tx.args)
      && s.handled[tx] == if s.finish[t] || s.busy[t] then 1 else 0
  }

  /** A buffer is locked by a CPU that sends to it, and in use only while that CPU waits. */
  ghost predicate BufferOk(s: Sys, t: int)
    requires Shaped(s) && C(s, t)
  {
    && (s.lock[t] != NONE ==>
       C(s, s.lock[t]) && (s.pc[s.lock[t]].Filling? || s.pc[s.lock[t]].Waiting?) && s.pc[s.lock[t]].to == t)
    && (!s.finish[t] ==> s.lock[t] != NONE && s.pc[s.lock[t]].Waiting?)
    && (s.busy[t] ==> !s.finish[t])
  }

  /** A transaction is still waited for. */
  ghost predicate Current(s: Sys, tx: Tx)
    requires Shaped(s)
  {
    C(s, tx.from) && s.pc[tx.from].Waiting? && s.pc[tx.from].tx == tx
  }

  /** Every transaction whose lock was released has been handled once; nothing else is handled. */
  ghost predicate TxOk(s: Sys, tx: Tx)
    requires Shaped(s)
  {
    && (tx in s.started ==> tx.id < s.next && (Current(s, tx) || s.handled[tx] == 1))
    && (tx in s.handled ==> tx in s.started)
  }

  ghost predicate Inv(s: Sys) {
    && Shaped(s)
    && (forall c {:trigger SenderOk(s, c)} :: C(s, c) ==> SenderOk(s, c))
    && (forall t {:trigger BufferOk(s, t)} :: C(s, t) ==> BufferOk(s, t))
    && (forall tx {:trigger TxOk(s, tx)} :: TxOk(s, tx))
  }

  // ---- steps ----

  datatype Event =
    | Send(c: int, t: int)
    | TryLock(c: int)
    | SetArg(c: int, k: int, val: int)
    | Start(c: int, vector: int)
    | Finish(c: int)
    | BeginHandle(t: int)
    | EndHandle(t: int)

  /** A CPU looks at its own buffer unless it is filling another's. */
  ghost predicate Can(s: Sys, e: Event)
    requires Shaped(s)
  {
    match e
    case Send(c, t) => C(s, c) && C(s, t) && s.pc[c] == Idle && !s.busy[c]
    case TryLock(c) => C(s, c) && s.pc[c].Prepare? && C(s, s.pc[c].to) && !s.busy[c] && s.lock[s.pc[c].to] == NONE
    case SetArg(c, k, _) => C(s, c) && s.pc[c].Filling? && C(s, s.pc[c].to) && 0 <= k < |s.args[s.pc[c].to]|
    case Start(c, _) => C(s, c) && s.pc[c].Filling? && C(s, s.pc[c].to)
    case Finish(c) => C(s, c) && s.pc[c].Waiting? && C(s, s.pc[c].to) && !s.busy[c] && s.finish[s.pc[c].to]
    case BeginHandle(t) => C(s, t) && !s.pc[t].Filling? && !s.busy[t] && !s.finish[t] && C(s, s.lock[t])
      && s.pc[s.lock[t]].Waiting?
    case EndHandle(t) => C(s, t) && s.busy[t]
  }

  /** What the target of buffer `t` sees: the vector and arguments in the buffer. */
  ghost function Seen(s: Sys, t: int): Tx
    requires Shaped(s) && C(s, t) && C(s, s.lock[t]) && s.pc[s.lock[t]].Waiting?
  {
    Tx(s.pc[s.lock[t]].tx.id, s.lock[t], t, s.vector[t], s.args[t])
  }

  ghost function Do(s: Sys, e: Event): Sys
    requires Shaped(s) && Can(s, e)
  {
    match e
    case Send(c, t) => s.(pc := s.pc[c := Prepare(t)])
    case TryLock(c) => s.(lock := s.lock[s.pc[c].to := c], pc := s.pc[c := Filling(s.pc[c].to)])
    case SetArg(c, k, val) => s.(args := s.args[s.pc[c].to := s.args[s.pc[c].to][k := val]])
    case Start(c, vector) =>
      var t := s.pc[c].to;
      var tx := Tx(s.next, c, t, vector, s.args[t]);
      s.(vector := s.vector[t := vector], finish := s.finish[t := false], pc := s.pc[c := Waiting(t, tx)],
        started := s.started + {tx}, next := s.next + 1)
    case Finish(c) => s.(lock := s.lock[s.pc[c].to := NONE], pc := s.pc[c := Idle])
    case BeginHandle(t) => s.(busy := s.busy[t := true], handled := s.handled + multiset{Seen(s, t)})
    case EndHandle(t) => s.(busy := s.busy[t := false], finish := s.finish[t := true])
  }

  // ---- the invariant is kept ----

  /** The CPUs that a step is about. */
  ghost function Actor(s: Sys, e: Event): int
    requires Shaped(s)
  {
    match e
    case Send(c, _) => c
    case TryLock(c) => c
    case SetArg(c, _, _) => c
    case Start(c, _) => c
    case Finish(c) => c
    case BeginHandle(t) => if C(s, t) then s.lock[t] else t
    case EndHandle(t) => if C(s, t) then s.lock[t] else t
  }

  lemma StepFacts(s: Sys, e: Event)
    requires Inv(s) && Can(s, e)
    ensures C(s, Actor(s, e)) && SenderOk(s, Actor(s, e)) && BufferOk(s, Actor(s, e))
    ensures s.pc[Actor(s, e)] != Idle ==> C(s, s.pc[Actor(s, e)].to) && BufferOk(s, s.pc[Actor(s, e)].to)
    ensures e.BeginHandle? || e.EndHandle? ==> s.pc[Actor(s, e)].Waiting? && s.pc[Actor(s, e)].to == e.t
  {
    if e.BeginHandle? || e.EndHandle? { assert BufferOk(s, e.t); }
    var a := Actor(s, e);
    assert SenderOk(s, a) && BufferOk(s, a);
    if s.pc[a] != Idle { assert BufferOk(s, s.pc[a].to); }
  }

  lemma StepSender(s: Sys, e: Event, c: int)
    requires Inv(s) && Can(s, e) && C(s, c)
    ensures SenderOk(Do(s, e), c)
  {
    StepFacts(s, e);
    assert SenderOk(s, c);
    if s.pc[c].Waiting? { assert TxOk(s, s.pc[c].tx); }
    if e.Start? { assert TxOk(s, Tx(s.next, e.c, s.pc[e.c].to, e.vector, s.args[s.pc[e.c].to])); }
  }

  lemma StepBuffer(s: Sys, e: Event, t: int)
    requires Inv(s) && Can(s, e) && C(s, t)
    ensures BufferOk(Do(s, e), t)
  {
    StepFacts(s, e);
    assert BufferOk(s, t);
  }

  lemma StepTx(s: Sys, e: Event, tx: Tx)
    requires Inv(s) && Can(s, e)
    ensures TxOk(Do(s, e), tx)
  {
    StepFacts(s, e);
    assert TxOk(s, tx);
    if Current(s, tx) { assert SenderOk(s, tx.from); }
  }

  lemma StepKeeps(s: Sys, e: Event)
    requires Inv(s) && Can(s, e)
    ensures Inv(Do(s, e))
  {
    hide SenderOk, BufferOk, TxOk;
    var r := Do(s, e);
    forall c | C(r, c) ensures SenderOk(r, c) && BufferOk(r, c) {
      StepSender(s, e, c);
      StepBuffer(s, e, c);
    }
    forall tx ensures TxOk(r, tx) { StepTx(s, e, tx); }
  }

  // ---- whole runs ----

  /** No CPU has sent anything yet. */
  ghost predicate Initial(s: Sys) {
    && Shaped(s) && s.started == {} && s.handled == multiset{}
    && forall c :: C(s, c) ==> s.lock[c] == NONE && s.finish[c] && !s.busy[c] && s.pc[c] == Idle
  }

  /** `init_ipi_data` */
  ghost function Boot(cpus: nat, args: nat): (s: Sys)
    ensures Initial(s) && |s.pc| == cpus
  {
    Sys(seq(cpus, _ => NONE), seq(cpus, _ => true), seq(cpus, _ => 0), seq(cpus, _ => seq(args, _ => 0)),
      seq(cpus, _ => false),
      seq(cpus, _ => Idle), {}, multiset{}, 0)
  }

  ghost predicate Reaches(s: Sys, es: seq<Event>, r: Sys) {
    if es == [] then r == s
    else exists q :: Reaches(s, es[..|es| - 1], q) && Shaped(q) && Can(q, es[|es| - 1]) && r == Do(q, es[|es| - 1])
  }

  lemma {:induction false} EveryRun(s: Sys, es: seq<Event>, r: Sys)
    requires Initial(s) && Reaches(s, es, r)
    ensures Inv(r)
    decreases |es|
  {
    if es != [] {
      hide Inv, Can, Do;
      var q :| Reaches(s, es[..|es| - 1], q) && Shaped(q) && Can(q, es[|es| - 1]) && r == Do(q, es[|es| - 1]);
      EveryRun(s, es[..|es| - 1], q);
      StepKeeps(q, es[|es| - 1]);
    }
  }

  /** The target handles the sender's own vector and arguments. */
  lemma HandlesWhatWasSent(s: Sys, t: int)
    requires Inv(s) && Can(s, BeginHandle(t))
    ensures Seen(s, t) == s.pc[s.lock[t]].tx && s.handled[Seen(s, t)] == 0
  {
    hide TxOk;
    StepFacts(s, BeginHandle(t));
    assert SenderOk(s, s.lock[t]) && BufferOk(s, t);
  }

  /** A lock is released after its transaction was handled exactly once, and stays so. */
  lemma HandledBeforeRelease(s: Sys, c: int)
    requires Inv(s) && Can(s, Finish(c))
    ensures s.handled[s.pc[c].tx] == 1
  {
    hide TxOk, BufferOk;
    assert SenderOk(s, c);
  }

  lemma HandledOnce(s: Sys, tx: Tx)
    requires Inv(s) && tx in s.started && !Current(s, tx)
    ensures s.handled[tx] == 1
  {
    hide SenderOk, BufferOk;
    assert TxOk(s, tx);
  }

  // ---- no state is stuck ----

  predicate Sends(e: Event) { e.Send? || e.SetArg? }

  /** Some CPU is in the middle of a transaction. */
  ghost predicate Unfinished(s: Sys)
    requires Shaped(s)
  {
    exists c :: C(s, c) && (s.pc[c] != Idle || s.busy[c])
  }

  /** While a transaction is under way, some CPU can take a step towards its end: a CPU waiting in
  `prepare_ipi_tx` or `wait_finish_ipi_tx` serves its own buffer. */
  lemma NotStuck(s: Sys) returns (e: Event)
    requires Inv(s) && Unfinished(s)
    ensures Can(s, e) && !Sends(e)
  {
    hide TxOk;
    if b :| C(s, b) && s.busy[b] {
      e := EndHandle(b);
    } else if f :| C(s, f) && s.pc[f].Filling? {
      assert SenderOk(s, f);
      e := Start(f, 0);
    } else if w :| C(s, w) && s.pc[w].Waiting? {
      assert SenderOk(s, w);
      var t := s.pc[w].to;
      e := if s.finish[t] then Finish(w) else BeginHandle(t);
    } else {
      var p :| C(s, p) && s.pc[p] != Idle;
      assert SenderOk(s, p) && BufferOk(s, s.pc[p].to);
      e := TryLock(p);
    }
  }

  /** What is left to do for one CPU: as a sender, and for its own buffer. */
  ghost function Work(s: Sys, c: int): nat
    requires Shaped(s) && C(s, c)
  {
    (match s.pc[c] case Idle => 0 case Prepare(_) => 5 case Filling(_) => 4 case Waiting(_, _) => 1)
    + (if s.finish[c] then 0 else if s.busy[c] then 1 else 2)
  }

  ghost function WorkBelow(s: Sys, n: nat): nat
    requires Shaped(s) && n <= |s.pc|
  {
    if n == 0 then 0 else WorkBelow(s, n - 1) + Work(s, n - 1)
  }

  /** Work changes only at two CPUs: `a`, and possibly `b`. */
  lemma {:induction false} WorkChange(s: Sys, r: Sys, n: nat, a: int, b: int)
    requires Shaped(s) && Shaped(r) && |s.pc| == |r.pc| && n <= |s.pc| && C(s, a) && C(s, b)
    requires forall c :: C(s, c) && c != a && c != b ==> Work(r, c) == Work(s, c)
    ensures WorkBelow(r, n) - WorkBelow(s, n)
      == (if a < n then Work(r, a) - Work(s, a) else 0) + (if b < n && b != a then Work(r, b) - Work(s, b) else 0)
  {
    hide Work;
    if n > 0 { WorkChange(s, r, n - 1, a, b); }
  }

  /** Every step but the start of a new transaction or setting an argument leaves less to do, so
  all transactions under way come to their end. */
  lemma Progress(s: Sys, e: Event)
    requires Inv(s) && Can(s, e) && !Sends(e)
    ensures |Do(s, e).pc| == |s.pc| && Shaped(Do(s, e)) && WorkBelow(Do(s, e), |s.pc|) < WorkBelow(s, |s.pc|)
  {
    hide TxOk;
    StepFacts(s, e);
    var r := Do(s, e);
    var a := Actor(s, e);
    var b := s.pc[a].to;
    assert SenderOk(s, a) && BufferOk(s, b);
    WorkChange(s, r, |s.pc|, a, b);
  }
}
