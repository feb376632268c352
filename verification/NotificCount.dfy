/**
When signals are lost (`notification.c`). The count of pending signals has 32 bits and a signal does
not look whether it is full.
*/
module NotificCount {
  import opened Lists
  import opened NotificModel
  import opened NotificProof

  /** Accepted signals are neither taken by a wait nor pending. */
  ghost predicate Lost(s: Sys, n: int)
    requires Shaped(s) && 0 <= n < |s.pending|
  {
    s.accepted[n] != s.success[n] + s.pending[n]
  }

  lemma LostIff(s: Sys, n: int)
    requires Inv(s) && 0 <= n < |s.pending|
    ensures Lost(s, n) <==> s.wraps[n] > 0
    ensures Lost(s, n) <==> s.accepted[n] - s.success[n] >= U32
  {
    hide Locks, Waiting, Sleeping, Expiring, Waking, EndsOnce;
  }

  /** In every run no signal is lost iff fewer than 2^32 more were accepted than waits took. */
  lemma BalanceIff(s: Sys, es: seq<Step>, r: Sys, n: int)
    requires Start(s) && Reaches(s, es, r)
    ensures Shaped(r)
    ensures 0 <= n < |r.pending| ==>
      (r.accepted[n] == r.success[n] + r.pending[n] <==> r.accepted[n] - r.success[n] < U32)
  {
    hide InvBut, Start, Reaches;
    EveryRun(s, es, r);
    Promises(r);
  }

  /** The step that loses signals: a signal while the count is full. */
  ghost predicate Overflows(s: Sys, e: Step, n: int)
    requires Shaped(s) && 0 <= n < |s.pending| && Can(s, e)
  {
    e.SignalOn? && s.pc[e.t] == S1(n) && s.pending[n] == U32 - 1
  }

  lemma WrapsAre(s: Sys, e: Step, n: int)
    requires Inv(s) && Can(s, e) && 0 <= n < |s.pending|
    ensures |Do(s, e).wraps| == |s.wraps|
    ensures Do(s, e).wraps[n] == s.wraps[n] + if Overflows(s, e, n) then 1 else 0
  {
    hide Locks, Waiting, Sleeping, Expiring, Waking, EndsOnce, CanGo, CanGoTimer, Relock, Without;
  }

  /** Signals are lost by exactly such a step, and no later step makes up for it. */
  lemma LosesIff(s: Sys, e: Step, n: int)
    requires Inv(s) && Can(s, e) && 0 <= n < |s.pending|
    ensures Inv(Do(s, e)) && n < |Do(s, e).pending|
    ensures Lost(Do(s, e), n) <==> Lost(s, n) || Overflows(s, e, n)
  {
    hide InvBut, Can, Do, Overflows;
    StepKeeps(s, e);
    Promises(s);
    Promises(Do(s, e));
    WrapsAre(s, e, n);
    LostIff(s, n);
    LostIff(Do(s, e), n);
  }

  // ---- a run that loses signals ----

  /** One thread, one notification, one CPU; the thread is at `p` and has signalled `k` times. */
  ghost function Signalled(k: nat, p: Pc, held: Actor): Sys {
    Sys([p], [false], [0], [0], [Nobody], [k % U32], [[]], [held], [[]], [Nobody], [T0],
      [k], [0], [0], [0], [k / U32])
  }

  ghost function After(k: nat): Sys { Signalled(k, Idle, Nobody) }

  ghost function Amid(k: nat): Sys { Signalled(k, S1(0), Thr(0)) }

  lemma AfterStarts()
    ensures Start(After(0))
  {
  }

  lemma SignalBegins(k: nat)
    ensures Shaped(After(k)) && Can(After(k), BeginSignal(0, 0)) && Do(After(k), BeginSignal(0, 0)) == Amid(k)
  {
  }

  lemma OneMore(k: nat)
    ensures (k % U32 + 1) % U32 == (k + 1) % U32
    ensures k / U32 + (if k % U32 + 1 == U32 then 1 else 0) == (k + 1) / U32
  {
  }

  lemma SignalEnds(k: nat)
    ensures Shaped(Amid(k)) && Can(Amid(k), SignalOn(0)) && Do(Amid(k), SignalOn(0)) == After(k + 1)
  {
    OneMore(k);
  }

  lemma {:induction false} Signals(k: nat) returns (es: seq<Step>)
    ensures Reaches(After(0), es, After(k))
  {
    hide Reaches, After, Amid, Shaped, Can, Do;
    if k == 0 {
      es := [];
      NoSteps(After(0));
    } else {
      es := Signals(k - 1);
      SignalBegins(k - 1);
      ReachesMore(After(0), es, After(k - 1), BeginSignal(0, 0));
      SignalEnds(k - 1);
      ReachesMore(After(0), es + [BeginSignal(0, 0)], Amid(k - 1), SignalOn(0));
      es := es + [BeginSignal(0, 0)] + [SignalOn(0)];
    }
  }

  lemma NoSteps(s: Sys)
    ensures Reaches(s, [], s)
  {
  }

  /** 2^32 signals that nobody waits for: all are accepted and none is pending. */
  lemma LosingRun() returns (s: Sys, es: seq<Step>, r: Sys)
    ensures Start(s) && Reaches(s, es, r)
    ensures |r.pending| == |r.accepted| == |r.success| == 1
    ensures r.accepted[0] == U32 && r.success[0] == 0 && r.pending[0] == 0
  {
    hide Reaches, Start;
    AfterStarts();
    s, r := After(0), After(U32);
    es := Signals(U32);
  }
}
