/**
What is handled is what was asked for: the transactions of a run, read off its events alone.
*/
module IpiHistory {
  import opened Ipi

  ghost function Before(es: seq<Event>): seq<Event>
    requires es != []
  {
    es[..|es| - 1]
  }

  ghost function Last(es: seq<Event>): Event
    requires es != []
  {
    es[|es| - 1]
  }

  /** The CPU that CPU `c` last began to send to: the argument of `prepare_ipi_tx`. */
  ghost function Aim(es: seq<Event>, c: int): int {
    if es == [] then NONE
    else if Last(es).Send? && Last(es).c == c then Last(es).t
    else Aim(Before(es), c)
  }

  /** The arguments in the buffer of CPU `t`: a CPU sets those of the one it sends to. */
  ghost function Buffer(s: Sys, es: seq<Event>, t: int): seq<int> {
    if es == [] then if 0 <= t < |s.args| then s.args[t] else []
    else
      var b, e := Buffer(s, Before(es), t), Last(es);
      if e.SetArg? && Aim(Before(es), e.c) == t && 0 <= e.k < |b| then b[e.k := e.val] else b
  }

  /** The arguments that CPU `c` has set since it locked a buffer. */
  ghost function Sets(es: seq<Event>, c: int): map<int, int> {
    if es == [] then map[]
    else
      match Last(es)
      case TryLock(x) => if x == c then map[] else Sets(Before(es), c)
      case SetArg(x, k, val) => if x == c then Sets(Before(es), c)[k := val] else Sets(Before(es), c)
      case _ => Sets(Before(es), c)
  }

  /** What the buffer held when CPU `c` locked it. */
  ghost function Found(s: Sys, es: seq<Event>, c: int): seq<int> {
    if es == [] then []
    else if Last(es) == TryLock(c) then Buffer(s, Before(es), Aim(Before(es), c))
    else Found(s, Before(es), c)
  }

  ghost function Starts(es: seq<Event>): nat {
    if es == [] then 0 else Starts(Before(es)) + if Last(es).Start? then 1 else 0
  }

  /** `args` are the arguments that CPU `c` set, and for the rest what it found. */
  ghost predicate Filled(s: Sys, es: seq<Event>, c: int, args: seq<int>) {
    && |args| == |Found(s, es, c)|
    && forall k :: 0 <= k < |args| ==> args[k] == if k in Sets(es, c) then Sets(es, c)[k] else Found(s, es, c)[k]
  }

  /** Event `i` starts transaction `tx`: its sender, the CPU it last began to send to, the vector, and the
  arguments it has set. */
  ghost predicate Asks(s: Sys, es: seq<Event>, i: int, tx: Tx) {
    && 0 <= i < |es| && es[i] == Start(tx.from, tx.vector) && tx.id == s.next + Starts(es[..i])
    && tx.to == Aim(es[..i], tx.from) && Filled(s, es[..i], tx.from, tx.args)
  }

  // ---- agreement of state and events ----

  ghost predicate CpuAgrees(s: Sys, es: seq<Event>, r: Sys, c: int)
    requires Shaped(r) && C(r, c)
  {
    && (r.pc[c] != Idle ==> r.pc[c].to == Aim(es, c))
    && r.args[c] == Buffer(s, es, c)
    && (r.pc[c].Filling? && C(r, r.pc[c].to) ==> Filled(s, es, c, r.args[r.pc[c].to]))
  }

  ghost predicate TxAgrees(s: Sys, es: seq<Event>, r: Sys, tx: Tx) {
    && (tx in r.started <==> exists i :: Asks(s, es, i, tx))
    && (tx in r.handled ==> exists i, j :: Handles(s, es, i, j, tx))
  }

  /** Event `j` handles on the target what event `i` started. */
  ghost predicate Handles(s: Sys, es: seq<Event>, i: int, j: int, tx: Tx) {
    i < j < |es| && Asks(s, es, i, tx) && es[j] == BeginHandle(tx.to)
  }

  ghost predicate Agrees(s: Sys, es: seq<Event>, r: Sys) {
    && Shaped(r) && |r.pc| == |s.pc| && r.next == s.next + Starts(es)
    && (forall c :: C(r, c) ==> CpuAgrees(s, es, r, c))
    && (forall tx :: TxAgrees(s, es, r, tx))
  }

  lemma StepCpu(s: Sys, es: seq<Event>, q: Sys, c: int)
    requires es != [] && Inv(q) && Can(q, Last(es)) && Agrees(s, Before(es), q) && C(q, c)
    ensures CpuAgrees(s, es, Do(q, Last(es)), c)
  {
    hide TxAgrees, TxOk;
    var e := Last(es);
    StepFacts(q, e);
    assert CpuAgrees(s, Before(es), q, c) && SenderOk(q, c);
    if e.SetArg? {
      assert CpuAgrees(s, Before(es), q, e.c) && SenderOk(q, e.c);
    }
    if e.TryLock? { assert CpuAgrees(s, Before(es), q, q.pc[e.c].to); }
  }

  lemma AsksEarlier(s: Sys, es: seq<Event>, i: int, tx: Tx)
    requires es != [] && i < |es| - 1
    ensures Asks(s, es, i, tx) <==> Asks(s, Before(es), i, tx)
  {
    hide Filled, Aim, Starts;
    if 0 <= i { assert Before(es)[..i] == es[..i]; }
  }

  /** The transaction that a `Start` begins is the one it asks for. */
  lemma AsksNow(s: Sys, es: seq<Event>, q: Sys, tx: Tx)
    requires es != [] && Inv(q) && Can(q, Last(es)) && Agrees(s, Before(es), q)
    ensures Asks(s, es, |es| - 1, tx) <==>
      Last(es).Start? && C(q, q.pc[Last(es).c].to) &&
      tx == Tx(q.next, Last(es).c, q.pc[Last(es).c].to, Last(es).vector, q.args[q.pc[Last(es).c].to])
  {
    hide TxAgrees, Inv, Aim, Starts, Found, Sets, Buffer;
    var e := Last(es);
    assert es[..|es| - 1] == Before(es);
    if e.Start? {
      assert CpuAgrees(s, Before(es), q, e.c);
      if Asks(s, es, |es| - 1, tx) { assert tx.args == q.args[q.pc[e.c].to]; }
    }
  }

  lemma StepStarted(s: Sys, es: seq<Event>, q: Sys, tx: Tx)
    requires es != [] && Inv(q) && Can(q, Last(es)) && Agrees(s, Before(es), q)
    ensures tx in Do(q, Last(es)).started <==> exists i :: Asks(s, es, i, tx)
  {
    hide Asks, CpuAgrees, Inv, Aim, Starts, Handles;
    assert TxAgrees(s, Before(es), q, tx);
    AsksNow(s, es, q, tx);
    OnlyPlaces(s, es, tx);
    OnlyPlaces(s, Before(es), tx);
    if i :| Asks(s, es, i, tx) && i < |es| - 1 { AsksEarlier(s, es, i, tx); }
    if i :| Asks(s, Before(es), i, tx) { AsksEarlier(s, es, i, tx); }
  }

  lemma StepHandled(s: Sys, es: seq<Event>, q: Sys, tx: Tx)
    requires es != [] && Inv(q) && Can(q, Last(es)) && Agrees(s, Before(es), q) && tx in Do(q, Last(es)).handled
    ensures exists i, j :: Handles(s, es, i, j, tx)
  {
    hide Asks, CpuAgrees, Inv, Aim, Starts;
    assert TxAgrees(s, Before(es), q, tx);
    OnlyPlaces(s, Before(es), tx);
    if tx in q.handled {
      var i, j :| Handles(s, Before(es), i, j, tx);
      AsksEarlier(s, es, i, tx);
      assert Handles(s, es, i, j, tx);
    } else {
      NewlyHandled(q, Last(es), tx);
      var i :| Asks(s, Before(es), i, tx);
      AsksEarlier(s, es, i, tx);
      assert Handles(s, es, i, |es| - 1, tx);
    }
  }

  lemma OnlyPlaces(s: Sys, es: seq<Event>, tx: Tx)
    ensures forall i :: Asks(s, es, i, tx) ==> 0 <= i < |es|
  {
  }

  lemma NewlyHandled(q: Sys, e: Event, tx: Tx)
    requires Inv(q) && Can(q, e) && tx !in q.handled && tx in Do(q, e).handled
    ensures e == BeginHandle(tx.to) && tx in q.started
  {
    hide TxOk;
    HandlesWhatWasSent(q, e.t);
    StepFacts(q, e);
    assert SenderOk(q, q.lock[e.t]);
  }

  lemma StepTxs(s: Sys, es: seq<Event>, q: Sys, tx: Tx)
    requires es != [] && Inv(q) && Can(q, Last(es)) && Agrees(s, Before(es), q)
    ensures TxAgrees(s, es, Do(q, Last(es)), tx)
  {
    hide Asks, Handles, CpuAgrees, Inv, Do;
    StepStarted(s, es, q, tx);
    if tx in Do(q, Last(es)).handled { StepHandled(s, es, q, tx); }
  }

  lemma StepAgrees(s: Sys, es: seq<Event>, q: Sys)
    requires es != [] && Inv(q) && Can(q, Last(es)) && Agrees(s, Before(es), q)
    ensures Agrees(s, es, Do(q, Last(es)))
  {
    hide CpuAgrees, TxAgrees, Inv;
    var r := Do(q, Last(es));
    forall c | C(r, c) ensures CpuAgrees(s, es, r, c) { StepCpu(s, es, q, c); }
    forall tx ensures TxAgrees(s, es, r, tx) { StepTxs(s, es, q, tx); }
  }

  // ---- whole runs ----

  lemma {:induction false} RunAgrees(s: Sys, es: seq<Event>, r: Sys)
    requires Initial(s) && Reaches(s, es, r)
    ensures Inv(r) && Agrees(s, es, r)
    decreases |es|
  {
    EveryRun(s, es, r);
    if es != [] {
      hide Inv, Can, Do, Agrees;
      var q :| Reaches(s, es[..|es| - 1], q) && Shaped(q) && Can(q, es[|es| - 1]) && r == Do(q, es[|es| - 1]);
      RunAgrees(s, Before(es), q);
      StepAgrees(s, es, q);
    }
  }

  /** In every run, a transaction is handled at most once, on the CPU its sender meant, with the vector and the
  arguments the sender gave, after it was started. */
  lemma HandledAsAsked(s: Sys, es: seq<Event>, r: Sys, tx: Tx)
    requires Initial(s) && Reaches(s, es, r) && tx in r.handled
    ensures r.handled[tx] == 1 && exists i, j :: Handles(s, es, i, j, tx)
  {
    hide SenderOk, BufferOk, CpuAgrees, Handles;
    RunAgrees(s, es, r);
    assert TxAgrees(s, es, r, tx) && TxOk(r, tx);
    if Current(r, tx) { CurrentOnce(r, tx); }
  }

  lemma CurrentOnce(r: Sys, tx: Tx)
    requires Inv(r) && Current(r, tx)
    ensures r.handled[tx] <= 1
  {
    hide TxOk, BufferOk;
    assert SenderOk(r, tx.from);
  }

  /** And whatever was asked for is handled exactly once by the time its sender goes on. */
  lemma AskedIsHandled(s: Sys, es: seq<Event>, r: Sys, i: int, tx: Tx)
    requires Initial(s) && Reaches(s, es, r) && Asks(s, es, i, tx)
    ensures Shaped(r) && (Current(r, tx) || r.handled[tx] == 1)
  {
    hide SenderOk, BufferOk, CpuAgrees, Asks;
    RunAgrees(s, es, r);
    assert TxAgrees(s, es, r, tx) && TxOk(r, tx);
  }
}
