/** The priority-based round-robin scheduler of one CPU (`policy_pbrr.c`). */
module Pbrr {
  import opened BuddyBits
  import opened Bits
  import opened Lists

  const LEVEL := 32          // PRIOS_PER_LEVEL
  const PRIO_NUM := 256
  const IDLE_PRIO := 0
  const DEFAULT_BUDGET := 1
  const NO_THREAD := -1
  const EINVAL := 22

  /** `struct prio_bitmap`, two levels */
  class PrioBitmap {
    var lvl0: nat
    var lvl1: seq<nat>

    /** A bit of the first level is set exactly when its word of the second level is not zero. */
    ghost predicate Valid() reads this {
      && |lvl1| == LEVEL && lvl0 < Pow(LEVEL)
      && (forall i :: 0 <= i < LEVEL ==> lvl1[i] < Pow(LEVEL))
      && (forall i :: 0 <= i < LEVEL ==> (Bit(lvl0, i) <==> lvl1[i] != 0))
    }

    ghost predicate Has(p: int)
      requires Valid()
      reads this
    {
      0 <= p < LEVEL * LEVEL && Bit(lvl1[p / LEVEL], p % LEVEL)
    }

    /** `prio_bitmap_init` */
    constructor ()
      ensures Valid() && forall p :: !Has(p)
    {
      lvl0 := 0;
      lvl1 := seq(LEVEL, _ => 0);
      new;
      forall j ensures !Bit(0, j) { NoBits(j); }
    }

    /** `prio_bitmap_set` */
    method Set(p: nat)
      requires Valid() && p < LEVEL * LEVEL
      modifies this
      ensures Valid() && forall q :: Has(q) <==> old(Has(q)) || q == p
    {
      hide Bit, Pow, SetBit;
      var i, j := p / LEVEL, p % LEVEL;
      forall q: nat ensures Bit(SetBit(lvl0, i), q) <==> i == q || Bit(lvl0, q) { SetBitAt(lvl0, i, q); }
      forall q: nat ensures Bit(SetBit(lvl1[i], j), q) <==> j == q || Bit(lvl1[i], q) { SetBitAt(lvl1[i], j, q); }
      InWord(lvl0, i, LEVEL);
      InWord(lvl1[i], j, LEVEL);
      ZeroIff(SetBit(lvl1[i], j), LEVEL);
      assert Bit(SetBit(lvl1[i], j), j);
      lvl0 := SetBit(lvl0, i);
      lvl1 := lvl1[i := SetBit(lvl1[i], j)];
    }

    /** `prio_bitmap_clear` */
    method Clear(p: nat)
      requires Valid() && p < LEVEL * LEVEL
      modifies this
      ensures Valid() && forall q :: Has(q) <==> old(Has(q)) && q != p
    {
      hide Bit, Pow, ClearBit;
      var i, j := p / LEVEL, p % LEVEL;
      forall q: nat ensures Bit(ClearBit(lvl0, i), q) <==> i != q && Bit(lvl0, q) { ClearBitAt(lvl0, i, q); }
      forall q: nat ensures Bit(ClearBit(lvl1[i], j), q) <==> j != q && Bit(lvl1[i], q) { ClearBitAt(lvl1[i], j, q); }
      InWord(lvl0, i, LEVEL);
      InWord(lvl1[i], j, LEVEL);
      ClearZero(lvl1[i], j);
      lvl1 := lvl1[i := ClearBit(lvl1[i], j)];
      if lvl1[i] == 0 { lvl0 := ClearBit(lvl0, i); }
    }

    /** `prio_bitmap_is_empty` */
    method IsEmpty() returns (r: bool)
      requires Valid()
      ensures r <==> forall p :: !Has(p)
    {
      hide Bit, Pow;
      ZeroIff(lvl0, LEVEL);
      r := lvl0 == 0;
      if r {
        forall p | 0 <= p < LEVEL * LEVEL ensures !Bit(lvl1[p / LEVEL], p % LEVEL) {
          NoBits(p / LEVEL);
          NoBits(p % LEVEL);
        }
      } else {
        ghost var i: nat :| i < LEVEL && Bit(lvl0, i);
        ZeroIff(lvl1[i], LEVEL);
        ghost var j: nat :| j < LEVEL && Bit(lvl1[i], j);
        assert Has(i * LEVEL + j);
      }
    }

    /** `get_highest_prio` */
    method Highest() returns (p: nat)
      requires Valid() && exists q :: Has(q)
      ensures Has(p) && forall q :: Has(q) ==> q <= p
    {
      hide Bit, Pow, Bsr;
      ghost var q0 :| Has(q0);
      WordOf(q0);
      ZeroIff(lvl0, LEVEL);
      var i := Bsr(lvl0);
      if i >= LEVEL { BitsBeyond(lvl0, i, LEVEL); }
      var j := Bsr(lvl1[i]);
      if j >= LEVEL { BitsBeyond(lvl1[i], j, LEVEL); }
      p := i * LEVEL + j;
      forall q | Has(q) ensures q <= p {
        WordOf(q);
        if q / LEVEL > i { BsrHighest(lvl0, q / LEVEL); }
        if q / LEVEL == i && q % LEVEL > j { BsrHighest(lvl1[i], q % LEVEL); }
      }
    }

    /** The word of a set bit is marked in the first level. */
    lemma WordOf(p: int)
      requires Valid() && Has(p)
      ensures 0 <= p / LEVEL < LEVEL && Bit(lvl0, p / LEVEL) && lvl1[p / LEVEL] != 0
    {
      hide Bit, Pow;
      if lvl1[p / LEVEL] == 0 { NoBits(p % LEVEL); }
    }
  }

  lemma ClearZero(x: nat, j: nat)
    requires x < Pow(LEVEL) && j < LEVEL
    ensures x == 0 ==> ClearBit(x, j) == 0
  {
    hide Bit, Pow, ClearBit;
    if x == 0 {
      InWord(x, j, LEVEL);
      forall q: nat ensures !Bit(ClearBit(0, j), q) { NoBits(q); ClearBitAt(0, j, q); }
      ZeroIff(ClearBit(0, j), LEVEL);
    }
  }

  // ---- the ready queues ----

  /** `Away`: queued on another CPU; `Doomed`: TS_EXIT but not yet taken out of its queue */
  datatype State = Ready | Inter | Running | Waiting | Exited | Away | Doomed

  predicate InQueue(x: State) { x == Ready || x == Doomed }

  /** What the scheduler knows of a thread. `here`: its affinity allows this CPU; `free`: its kernel
  stack is free. */
  datatype Info = Info(prio: int, budget: nat, state: State, here: bool, free: bool, exiting: bool)

  type Infos = map<int, Info>

  /** A thread is in the queue of its priority exactly when it is ready or marked as exited there. */
  ghost predicate Queued(queues: seq<seq<int>>, info: Infos) {
    && |queues| == PRIO_NUM
    && (forall t <- info :: 0 <= info[t].prio < PRIO_NUM)
    && (forall p :: 0 <= p < PRIO_NUM ==> NoDup(queues[p]))
    && (forall p, t {:trigger t in queues[p]} :: 0 <= p < PRIO_NUM ==>
       (t in queues[p] <==> t in info && info[t].prio == p && InQueue(info[t].state)))
    && (forall t <- info :: info[t].state == Doomed ==> info[t].exiting)
  }

  /** The idle thread runs here or is in the lowest queue. */
  ghost predicate IdleReady(info: Infos, cur: int, idle: int) {
    && idle in info && idle != NO_THREAD && info[idle].prio == IDLE_PRIO && info[idle].here && !info[idle].exiting
    && info[idle].state == if cur == idle then Running else Ready
  }

  ghost predicate CurrentOk(info: Infos, cur: int) {
    && (cur == NO_THREAD || cur in info) && NO_THREAD !in info
    && (forall t <- info :: info[t].state == Running ==> t == cur)
  }

  ghost predicate Consistent(queues: seq<seq<int>>, info: Infos, cur: int, idle: int) {
    Queued(queues, info) && IdleReady(info, cur, idle) && CurrentOk(info, cur)
  }

  ghost predicate Runnable(info: Infos, cur: int) {
    cur in info && info[cur].state == Running && info[cur].here
  }

  /** `find_runnable_thread`: the first thread of the list that can be run, or none */
  ghost function FirstFree(l: seq<int>, info: Infos, cur: int): int {
    if l == [] then NO_THREAD
    else if (l[0] in info && info[l[0]].free) || l[0] == cur then l[0]
    else FirstFree(l[1..], info, cur)
  }

  ghost predicate HighestIs(queues: seq<seq<int>>, h: int) {
    0 <= h < |queues| && queues[h] != [] && forall p :: h < p < |queues| ==> queues[p] == []
  }

  ghost predicate AllEmpty(queues: seq<seq<int>>) {
    forall p :: 0 <= p < |queues| ==> queues[p] == []
  }

  /** The current thread goes on: it can, and no ready thread is better. */
  ghost predicate Stays(queues: seq<seq<int>>, info: Infos, cur: int) {
    && Runnable(info, cur)
    && (AllEmpty(queues) || exists h ::
       HighestIs(queues, h) && (info[cur].prio > h || (info[cur].prio == h && info[cur].budget > 0)))
  }

  /** The scheduling decision: the current thread if it stays, else the first thread of the highest
  queue that can be run, else the idle thread. */
  ghost predicate Picked(queues: seq<seq<int>>, info: Infos, cur: int, idle: int, t: int) {
    if Stays(queues, info, cur) then t == cur
    else exists h ::
      HighestIs(queues, h)
      && t == if FirstFree(queues[h], info, cur) != NO_THREAD then FirstFree(queues[h], info, cur) else idle
  }

  /** The threads of a list that are still queued. */
  ghost function Survivors(l: seq<int>, info: Infos): seq<int> {
    if l == [] then []
    else if l[0] in info && InQueue(info[l[0]].state) then [l[0]] + Survivors(l[1..], info)
    else Survivors(l[1..], info)
  }

  /** Some threads that were about to exit have left the queues; nothing else has changed. */
  ghost predicate Pruned(queues: seq<seq<int>>, info: Infos, queues': seq<seq<int>>, info': Infos) {
    && |queues'| == |queues| && (forall p :: 0 <= p < |queues| ==> queues'[p] == Survivors(queues[p], info'))
    && info'.Keys == info.Keys
    && forall t <- info ::
       info'[t] == info[t] || (InQueue(info[t].state) && info[t].exiting && info'[t] == info[t].(state := Exited))
  }

  /** Thread `t` leaves its queue. */
  ghost predicate Dequeued(queues: seq<seq<int>>, info: Infos, t: int, queues': seq<seq<int>>, info': Infos,
    state: State)
  {
    && t in info && 0 <= info[t].prio < |queues|
    && queues' == queues[info[t].prio := Without(queues[info[t].prio], t)]
       && info' == info[t := info[t].(state := state)]
  }

  lemma {:induction false} SurvivorsAll(l: seq<int>, info: Infos)
    requires forall t <- l :: t in info && InQueue(info[t].state)
    ensures Survivors(l, info) == l
  {
    if l != [] {
      var x := l[0];
      assert x in l && x in info;
      assert l == [x] + l[1..];
      SurvivorsAll(l[1..], info);
    }
  }

  lemma {:induction false} SurvivorsDrop(l: seq<int>, info: Infos, t: int)
    requires NoDup(l) && t in info && InQueue(info[t].state)
    ensures Survivors(l, info[t := info[t].(state := Exited)]) == Without(Survivors(l, info), t)
  {
    if l != [] {
      NoDupTail(l);
      SurvivorsDrop(l[1..], info, t);
      if l[0] == t {
        SurvivorsWithout(l[1..], info, t);
      }
    }
  }

  lemma {:induction false} SurvivorsWithout(l: seq<int>, info: Infos, t: int)
    requires t !in l
    ensures Without(Survivors(l, info), t) == Survivors(l, info) && t !in Survivors(l, info)
  {
    if l != [] { SurvivorsWithout(l[1..], info, t); }
  }

  ghost predicate CanRun(info: Infos, cur: int, t: int) { (t in info && info[t].free) || t == cur }

  /** The choice in a queue is its first thread whose stack is free or that is current: every thread
  before it has its stack in use and is not current, and so has every thread if there is none. */
  lemma {:induction false} FirstFreeIs(l: seq<int>, info: Infos, cur: int) returns (k: nat)
    requires NO_THREAD !in l
    ensures k <= |l| && (forall j :: 0 <= j < k ==> !CanRun(info, cur, l[j]))
    ensures FirstFree(l, info, cur) == (if k < |l| then l[k] else NO_THREAD) && (k < |l| ==> CanRun(info, cur, l[k]))
  {
    k := 0;
    if l != [] && !CanRun(info, cur, l[0]) {
      var m := FirstFreeIs(l[1..], info, cur);
      k := m + 1;
      assert forall j :: 1 <= j < |l| ==> l[j] == l[1..][j - 1];
    }
  }

  lemma {:induction false} FirstFreeIn(l: seq<int>, info: Infos, cur: int)
    ensures FirstFree(l, info, cur) == NO_THREAD || FirstFree(l, info, cur) in l
  {
    if l != [] { FirstFreeIn(l[1..], info, cur); }
  }

  ghost function ReadySet(info: Infos): set<int> {
    set t | t in info && InQueue(info[t].state)
  }

  lemma PrunedSelf(queues: seq<seq<int>>, info: Infos)
    requires Queued(queues, info)
    ensures Pruned(queues, info, queues, info)
  {
    hide NoDup;
    forall p | 0 <= p < |queues| ensures queues[p] == Survivors(queues[p], info) { SurvivorsAll(queues[p], info); }
  }

  lemma EmptyQueued(q: seq<seq<int>>, i: Infos)
    requires |q| == PRIO_NUM && AllEmpty(q) && forall t <- i :: 0 <= i[t].prio < PRIO_NUM && i[t].state == Waiting
    ensures Queued(q, i)
  {
  }

  /** A thread joins the tail of its queue. */
  lemma QueueAppend(q: seq<seq<int>>, i: Infos, t: int)
    requires Queued(q, i) && t in i && !InQueue(i[t].state)
    ensures 0 <= i[t].prio < |q| == PRIO_NUM
    ensures Queued(q[i[t].prio := q[i[t].prio] + [t]], i[t := i[t].(state := Ready)])
  {
    hide NoDup;
    assert t !in q[i[t].prio];
    NoDupSnoc(q[i[t].prio], t);
  }

  /** A thread leaves its queue. */
  lemma QueueRemove(q: seq<seq<int>>, i: Infos, t: int, state: State)
    requires Queued(q, i) && t in i && InQueue(i[t].state) && !InQueue(state)
    ensures 0 <= i[t].prio < |q| == PRIO_NUM && t in q[i[t].prio]
    ensures Queued(q[i[t].prio := Without(q[i[t].prio], t)], i[t := i[t].(state := state)])
  {
    hide NoDup, Without;
    WithoutIs(q[i[t].prio], t);
  }

  /** A thread changes without joining or leaving a queue. */
  lemma QueueSame(q: seq<seq<int>>, i: Infos, t: int, x: Info)
    requires Queued(q, i) && t in i && x.prio == i[t].prio && InQueue(x.state) == InQueue(i[t].state)
      && (x.state == Doomed ==> x.exiting)
    ensures Queued(q, i[t := x])
  {
    hide NoDup;
  }

  /** Only the idle thread can find all queues empty. */
  lemma EmptyMeansIdle(queues: seq<seq<int>>, info: Infos, cur: int, idle: int)
    requires Consistent(queues, info, cur, idle) && AllEmpty(queues)
    ensures cur == idle && Runnable(info, cur)
  {
    hide NoDup;
    assert idle in queues[IDLE_PRIO] <==> info[idle].state == Ready;
  }

  lemma NotStays(queues: seq<seq<int>>, info: Infos, cur: int, h: int)
    requires HighestIs(queues, h)
    requires !(Runnable(info, cur) && (info[cur].prio > h || (info[cur].prio == h && info[cur].budget > 0)))
    ensures !Stays(queues, info, cur)
  {
    forall g | HighestIs(queues, g) ensures g == h { }
  }

  lemma PruneMore(queues: seq<seq<int>>, info: Infos, q: seq<seq<int>>, i: Infos, t: int)
    requires Queued(queues, info) && Queued(q, i) && Pruned(queues, info, q, i) && t in i && InQueue(i[t].state)
      && i[t].exiting
    ensures Pruned(queues, info, q[i[t].prio := Without(q[i[t].prio], t)], i[t := i[t].(state := Exited)])
    ensures ReadySet(i[t := i[t].(state := Exited)]) == ReadySet(i) - {t} && t in ReadySet(i)
  {
    hide NoDup, Without, Survivors;
    var j := i[t := i[t].(state := Exited)];
    var r := q[i[t].prio := Without(q[i[t].prio], t)];
    forall p | 0 <= p < |queues| ensures r[p] == Survivors(queues[p], j) {
      SurvivorsDrop(queues[p], i, t);
      if p != i[t].prio { WithoutAbsent(q[p], t); }
    }
  }

  /** TS_EXIT, for a thread that may still be in its queue */
  function ExitState(x: State): State { if InQueue(x) then Doomed else Exited }

  /** A current thread that is going to exit is marked as exited, even while it is queued. */
  ghost function Leaving(info: Infos, cur: int): Infos {
    if cur in info && info[cur].exiting then info[cur := info[cur].(state := ExitState(info[cur].state))] else info
  }

  lemma LeavingKeeps(queues: seq<seq<int>>, info: Infos, cur: int, idle: int)
    requires Consistent(queues, info, cur, idle)
    ensures Consistent(queues, Leaving(info, cur), cur, idle)
  {
    hide NoDup;
  }

  /** What becomes of the thread the CPU leaves. */
  ghost function LeftBehind(x: Info): Info {
    x.(state := if x.state != Running then x.state else if x.here then Ready else Away, free := true)
  }

  /** What becomes of the thread the CPU goes to. */
  ghost function Begun(x: Info, switched: bool): Info {
    x.(state := Running, budget := if x.budget == 0 then DEFAULT_BUDGET else x.budget, free := x.free && !switched)
  }

  lemma BegunFrom(x: Info, switched: bool)
    ensures Begun(x.(state := Inter), switched) == Begun(x, switched)
  {
  }

  ghost function NextInfo(i: Infos, prev: int, next: int): Infos
    requires next in i
  {
    var a := if prev in i && prev != next then i[prev := LeftBehind(i[prev])] else i;
    a[next := Begun(i[next], prev != next)]
  }

  ghost predicate Requeues(i: Infos, prev: int, next: int) {
    prev in i && prev != next && i[prev].state == Running && i[prev].here
  }

  /** The queues after a switch. */
  ghost function NextQueues(q: seq<seq<int>>, i: Infos, prev: int, next: int): seq<seq<int>>
    requires Queued(q, i) && next in i
  {
    var r := if i[next].state == Ready then q[i[next].prio := Without(q[i[next].prio], next)] else q;
    if Requeues(i, prev, next) then r[i[prev].prio := r[i[prev].prio] + [prev]] else r
  }

  ghost function Tail(l: seq<int>): int
    requires l != []
  {
    l[|l| - 1]
  }

  lemma NextQueued(q: seq<seq<int>>, i: Infos, prev: int, next: int)
    requires Queued(q, i) && next in i && i[next].state != Doomed
    ensures Queued(NextQueues(q, i, prev, next), NextInfo(i, prev, next))
  {
    hide Queued, Without;
    var r, j := q, i;
    if i[next].state == Ready {
      QueueRemove(q, i, next, Inter);
      r, j := q[i[next].prio := Without(q[i[next].prio], next)], i[next := i[next].(state := Inter)];
    }
    if prev in i && prev != next {
      if Requeues(i, prev, next) {
        QueueAppend(r, j, prev);
        r, j := r[i[prev].prio := r[i[prev].prio] + [prev]], j[prev := i[prev].(state := Ready)];
      }
      NeverDoomed(r, j, prev);
      QueueSame(r, j, prev, LeftBehind(i[prev]));
      j := j[prev := LeftBehind(i[prev])];
    }
    QueueSame(r, j, next, Begun(i[next], prev != next));
    assert j[next := Begun(i[next], prev != next)] == NextInfo(i, prev, next);
  }

  lemma NeverDoomed(q: seq<seq<int>>, i: Infos, t: int)
    requires Queued(q, i) && t in i
    ensures i[t].state == Doomed ==> i[t].exiting
  {
  }

  lemma SwitchKeeps(q: seq<seq<int>>, i: Infos, prev: int, next: int, idle: int)
    requires Consistent(q, i, prev, idle) && next in i
      && (i[next].state == Ready || (next == prev && i[next].state == Running))
    ensures Consistent(NextQueues(q, i, prev, next), NextInfo(i, prev, next), next, idle)
    ensures forall t <- NextInfo(i, prev, next) :: NextInfo(i, prev, next)[t].state == Running ==>
      NextInfo(i, prev, next)[t].budget > 0
  {
    hide Queued;
    NextQueued(q, i, prev, next);
  }

  // ---- what a scheduling decision means ----

  /** A thread that could be run next: it is queued, or it is current and can go on. */
  ghost predicate Contends(i: Infos, prev: int, t: int) {
    t in i && (InQueue(i[t].state) || (t == prev && Runnable(i, prev)))
  }

  /** Nobody in the highest queue has its kernel stack free. */
  ghost predicate NoneFree(q: seq<seq<int>>, i: Infos, prev: int) {
    exists h :: HighestIs(q, h) && forall x <- q[h] :: !CanRun(i, prev, x)
  }

  /** The choice: nobody of higher priority is passed over, unless the stacks of all threads of the highest
  priority are in use, when the idle thread is taken; the current thread goes on exactly when every queued
  thread has a lower priority, or the same while budget is left. */
  ghost predicate Best(q: seq<seq<int>>, i: Infos, prev: int, idle: int, next: int)
    requires next in i
  {
    && ((forall t <- i :: Contends(i, prev, t) ==> i[t].prio <= i[next].prio) || (next == idle && NoneFree(q, i, prev)))
    && (MayGoOn(i, prev) ==> next == prev)
    && (!MayGoOn(i, prev) && !NoneFree(q, i, prev) ==> InQueue(i[next].state))
  }

  ghost predicate MayGoOn(i: Infos, prev: int) {
    && Runnable(i, prev)
    && forall t <- i :: InQueue(i[t].state) ==>
       i[t].prio < i[prev].prio || (i[t].prio == i[prev].prio && i[prev].budget > 0)
  }

  lemma BelowHighest(q: seq<seq<int>>, i: Infos, h: int)
    requires Queued(q, i) && HighestIs(q, h)
    ensures forall t <- i :: InQueue(i[t].state) ==> i[t].prio <= h
    ensures forall x <- q[h] :: x in i && InQueue(i[x].state) && i[x].prio == h
  {
    hide NoDup;
    forall t <- i | InQueue(i[t].state) ensures i[t].prio <= h { assert t in q[i[t].prio]; }
  }

  lemma StaysMeans(q: seq<seq<int>>, i: Infos, prev: int)
    requires Queued(q, i)
    ensures Stays(q, i, prev) <==> MayGoOn(i, prev)
  {
    hide NoDup, HighestIs;
    if AllEmpty(q) {
      forall t <- i ensures !InQueue(i[t].state) { assert t in q[i[t].prio] <==> InQueue(i[t].state); }
    } else {
      var h := HighestOf(q);
      BelowHighest(q, i, h);
      HighestFirst(q, h);
      var x := q[h][0];
      assert x in i && InQueue(i[x].state) && i[x].prio == h;
      assert !AllEmpty(q);
    }
  }

  lemma HighestFirst(q: seq<seq<int>>, h: int)
    requires HighestIs(q, h)
    ensures 0 <= h < |q| && q[h] != [] && q[h][0] in q[h] && forall g :: HighestIs(q, g) ==> g == h
  {
  }

  lemma HighestOf(q: seq<seq<int>>) returns (h: int)
    requires !AllEmpty(q)
    ensures HighestIs(q, h)
  {
    h := |q| - 1;
    while h >= 0 && q[h] == []
      invariant -1 <= h < |q| && forall p :: h < p < |q| ==> q[p] == []
    {
      h := h - 1;
    }
  }

  lemma NotGoingOn(q: seq<seq<int>>, i: Infos, prev: int, h: int)
    requires Queued(q, i) && HighestIs(q, h) && !MayGoOn(i, prev)
    ensures Runnable(i, prev) ==> i[prev].prio <= h
  {
    hide NoDup;
    BelowHighest(q, i, h);
  }

  lemma PickedBest(q: seq<seq<int>>, i: Infos, prev: int, idle: int, next: int)
    requires Consistent(q, i, prev, idle) && Picked(q, i, prev, idle, next) && next in i
    ensures Best(q, i, prev, idle, next)
  {
    hide NoDup, FirstFree;
    StaysMeans(q, i, prev);
    if !Stays(q, i, prev) {
      var h :| HighestIs(q, h)
        && next == if FirstFree(q[h], i, prev) != NO_THREAD then FirstFree(q[h], i, prev) else idle;
      var k := FirstFreeIs(q[h], i, prev);
      BelowHighest(q, i, h);
      if k == |q[h]| {
        forall x <- q[h] ensures !CanRun(i, prev, x) { }
        assert NoneFree(q, i, prev);
      } else {
        assert next in q[h];
        NotGoingOn(q, i, prev, h);
      }
    }
  }

  /** What becomes of a thread `x` that was current: it leaves if it is going to exit; otherwise it goes on, or
  is ready again here or on another CPU if it was running, or stays as it was. */
  ghost predicate Fate(x: Info, y: Info, goesOn: bool) {
    && (x.exiting ==> !goesOn && (y.state == Exited || y.state == Doomed))
    && (!x.exiting && goesOn ==> y.state == Running)
    && (!x.exiting && !goesOn ==>
       y.state == if x.state != Running then x.state else if x.here then Ready else Away)
    && y.prio == x.prio && y.here == x.here && y.exiting == x.exiting
    && (if goesOn then y.free == x.free else y.budget == x.budget && y.free)
  }

  /** A scheduler call turns `info` with current thread `prev` into `j` with current thread `next`. */
  ghost predicate Switched(info: Infos, prev: int, j: Infos, next: int) {
    && j.Keys == info.Keys && next in info && !info[next].exiting
    && j[next].state == Running && j[next].prio == info[next].prio && (prev != next ==> !j[next].free)
    && j[next].budget == (if info[next].budget == 0 then DEFAULT_BUDGET else info[next].budget)
    && (prev in info ==> Fate(info[prev], j[prev], prev == next))
    && forall t <- info :: t != prev && t != next ==>
       j[t] == info[t] || (InQueue(info[t].state) && info[t].exiting && j[t] == info[t].(state := Exited))
  }

  lemma SwitchMeans(queues: seq<seq<int>>, info: Infos, prev: int, idle: int, q: seq<seq<int>>, i: Infos, next: int)
    requires Consistent(queues, info, prev, idle) && Pruned(queues, Leaving(info, prev), q, i) && next in i
    requires (i[next].state == Ready && !i[next].exiting) || (next == prev && i[next].state == Running)
    ensures Switched(info, prev, NextInfo(i, prev, next), next)
  {
    hide NoDup, Survivors, Queued;
  }

  lemma PrevKnown(q: seq<seq<int>>, i: Infos, prev: int, idle: int)
    requires Consistent(q, i, prev, idle)
    ensures NO_THREAD !in i && (prev != NO_THREAD ==> prev in i)
  {
  }

  lemma HighestInRange(queues: seq<seq<int>>, h: int)
    requires HighestIs(queues, h)
    ensures 0 <= h < |queues|
  {
  }

  class Cpu {
    const idle: int
    const bitmap: PrioBitmap
    var cur: int
    var queues: seq<seq<int>>
    var info: Infos

    /** The bitmap marks exactly the queues that are not empty. */
    ghost predicate Marked() reads `queues, bitmap {
      && bitmap.Valid() && |queues| == PRIO_NUM
      && forall p :: bitmap.Has(p) <==> 0 <= p < PRIO_NUM && queues[p] != []
    }

    ghost predicate Valid() reads this, bitmap {
      Marked() && Consistent(queues, info, cur, idle)
    }

    /** The current thread has budget left, as the timer interrupt expects. */
    ghost predicate Funded() reads this {
      forall t <- info :: info[t].state == Running ==> info[t].budget > 0
    }

    /** `pbrr_sched_init`: the idle thread is queued. */
    constructor (idle: int, threads: Infos)
      requires idle != NO_THREAD && NO_THREAD !in threads && idle !in threads
      requires forall t <- threads :: 0 <= threads[t].prio < PRIO_NUM && threads[t].state == Waiting
      ensures Valid() && Funded() && this.idle == idle && cur == NO_THREAD && fresh(bitmap)
    {
      this.idle := idle;
      cur := NO_THREAD;
      bitmap := new PrioBitmap();
      queues := seq(PRIO_NUM, _ => []);
      info := threads[idle := Info(IDLE_PRIO, DEFAULT_BUDGET, Waiting, true, true, false)];
      new;
      EmptyQueued(queues, info);
      Append(idle);
    }

    /** `list_append` to the queue of the thread's priority */
    method Append(t: int)
      requires Marked() && Queued(queues, info) && t in info && !InQueue(info[t].state)
      modifies `queues, `info, bitmap
      ensures Marked() && Queued(queues, info)
      ensures info == old(info)[t := old(info)[t].(state := Ready)]
      ensures queues == old(queues)[info[t].prio := old(queues)[info[t].prio] + [t]]
    {
      hide Queued;
      QueueAppend(queues, info, t);
      var p := info[t].prio;
      info := info[t := info[t].(state := Ready)];
      queues := queues[p := queues[p] + [t]];
      bitmap.Set(p);
    }

    /** `pbrr_sched_enqueue` for a thread bound to this CPU. `twice`: its node is still in a queue and
    is linked a second time; a queue is no list any more then, and the model ends there. */
    method Enqueue(t: int) returns (r: int, twice: bool)
      requires Valid() && t in info && info[t].state != Running
      modifies `queues, `info, bitmap
      ensures (r == -EINVAL <==> old(info)[t].state == Ready) && (r == 0 || r == -EINVAL)
      ensures twice <==> r == 0 && exists p :: 0 <= p < |old(queues)| && t in old(queues)[p]
      ensures twice <==> old(info)[t].state == Doomed
      ensures !twice ==> Valid()
      ensures r != 0 ==> queues == old(queues) && info == old(info)
      ensures r == 0 && !twice ==> info == old(info)[t := old(info)[t].(state := Ready)]
      ensures r == 0 && !twice ==> queues == old(queues)[info[t].prio := old(queues)[info[t].prio] + [t]]
    {
      if info[t].state == Ready { return -EINVAL, false; }
      if info[t].state == Doomed {
        assert t in queues[info[t].prio];
        return 0, true;
      }
      Append(t);
      return 0, false;
    }

    /** `__pbrr_sched_dequeue`, leaving the thread in `state` */
    method Dequeue(t: int, state: State)
      requires Marked() && Queued(queues, info) && t in info && InQueue(info[t].state) && !InQueue(state)
      modifies `queues, `info, bitmap
      ensures Marked() && Queued(queues, info)
      ensures Dequeued(old(queues), old(info), t, queues, info, state)
    {
      hide Without, Queued;
      QueueRemove(queues, info, t, state);
      var p := info[t].prio;
      info := info[t := info[t].(state := state)];
      queues := queues[p := Without(queues[p], t)];
      if queues[p] == [] { bitmap.Clear(p); }
    }

    /** `find_runnable_thread` */
    method FindRunnable(l: seq<int>) returns (t: int)
      requires (forall x <- l :: x in info) && NO_THREAD !in info
      ensures t == FirstFree(l, info, cur)
      ensures if t == NO_THREAD then forall x <- l :: !CanRun(info, cur, x)
        else exists k ::
          0 <= k < |l| && t == l[k] && CanRun(info, cur, t) && forall j :: 0 <= j < k ==> !CanRun(info, cur, l[j])
    {
      var i := 0;
      while i < |l|
        invariant 0 <= i <= |l| && FirstFree(l, info, cur) == FirstFree(l[i..], info, cur)
        invariant forall j :: 0 <= j < i ==> !CanRun(info, cur, l[j])
      {
        if info[l[i]].free || l[i] == cur { return l[i]; }
        i := i + 1;
      }
      return NO_THREAD;
    }

    /** No thread is ready. */
    method QueuesEmpty() returns (r: bool)
      requires Marked()
      ensures r <==> AllEmpty(queues)
    {
      r := bitmap.IsEmpty();
      if !r {
        ghost var p :| bitmap.Has(p);
        assert queues[p] != [];
      } else {
        forall p | 0 <= p < |queues| ensures queues[p] == [] { assert !bitmap.Has(p); }
      }
    }

    /** The highest queue that is not empty. */
    method HighestQueue() returns (h: nat)
      requires Marked() && !AllEmpty(queues)
      ensures HighestIs(queues, h)
    {
      ghost var p :| 0 <= p < |queues| && queues[p] != [];
      assert bitmap.Has(p);
      h := bitmap.Highest();
      forall p | h < p < |queues| ensures queues[p] == [] { assert !bitmap.Has(p); }
    }

    /** One round of `pbrr_sched_choose_thread`. The checks of the source that the idle thread can
    be chosen are the two asserts on `runnable`. */
    method Decide() returns (t: int)
      requires Valid()
      ensures Picked(queues, info, cur, idle, t) && t in info
      ensures InQueue(info[t].state) || (t == cur && info[t].state == Running)
    {
      hide NoDup, FirstFree, HighestIs, AllEmpty, Marked;
      var runnable := cur != NO_THREAD && info[cur].state == Running && info[cur].here;
      assert runnable == Runnable(info, cur);
      var empty := QueuesEmpty();
      if empty {
        EmptyMeansIdle(queues, info, cur, idle);
        assert runnable;
        return cur;
      }
      var h := HighestQueue();
      HighestInRange(queues, h);
      if runnable && (info[cur].prio > h || (info[cur].prio == h && info[cur].budget > 0)) {
        return cur;
      }
      NotStays(queues, info, cur, h);
      t := FindRunnable(queues[h]);
      FirstFreeIn(queues[h], info, cur);
      if t == NO_THREAD {
        t := idle;
        if t == cur { assert runnable; }
      }
    }

    /** `pbrr_sched_choose_thread`. The ghost results are the queues and threads when the decision
    was made, without the threads that were found to exit. */
    method Choose() returns (t: int, ghost q: seq<seq<int>>, ghost i: Infos)
      requires Valid()
      modifies `queues, `info, bitmap
      ensures Marked() && Queued(queues, info)
      ensures Pruned(old(queues), old(info), q, i) && Consistent(q, i, cur, idle) && Picked(q, i, cur, idle, t)
        && t in i
      ensures t == cur && i[t].state == Running ==> queues == q && info == i
      ensures !(t == cur && i[t].state == Running) ==>
        i[t].state == Ready && !i[t].exiting && Dequeued(q, i, t, queues, info, Inter)
    {
      hide NoDup, Without, Picked, Marked, Pruned, ReadySet;
      PrunedSelf(queues, info);
      while true
        invariant Valid() && Pruned(old(queues), old(info), queues, info)
        decreases |ReadySet(info)|
      {
        q, i := queues, info;
        t := Decide();
        if t == cur && info[t].state == Running { return; }
        if info[t].exiting {
          PruneMore(old(queues), old(info), queues, info, t);
          Dequeue(t, Exited);
        } else {
          Dequeue(t, Inter);
          return;
        }
      }
    }

    /** The first step of `pbrr_sched`: a current thread that is going to exit is marked. */
    method MarkExit()
      requires Valid()
      modifies `info
      ensures Valid() && info == Leaving(old(info), cur)
    {
      LeavingKeeps(queues, info, cur, idle);
      if cur != NO_THREAD && info[cur].exiting {
        info := info[cur := info[cur].(state := ExitState(info[cur].state))];
      }
    }

    /** `pbrr_sched`: the old thread, if it can still run, goes to the end of its queue, or to
    another CPU if its affinity says so; the new one gets a budget. */
    method Sched() returns (ghost q: seq<seq<int>>, ghost i: Infos)
      requires Valid()
      modifies `cur, `queues, `info, bitmap
      ensures Valid() && Funded()
      ensures Pruned(old(queues), Leaving(old(info), old(cur)), q, i) && Consistent(q, i, old(cur), idle)
      ensures cur in i && Picked(q, i, old(cur), idle, cur)
      ensures queues == NextQueues(q, i, old(cur), cur) && info == NextInfo(i, old(cur), cur)
      ensures Best(q, i, old(cur), idle, cur) && Switched(old(info), old(cur), info, cur)
      ensures Requeues(i, old(cur), cur) ==>
        queues[i[old(cur)].prio] != [] && Tail(queues[i[old(cur)].prio]) == old(cur)
    {
      hide NoDup, Without, Picked, Pruned, IdleReady, CurrentOk, Marked, LeftBehind, Begun, Best, Switched;
      var prev := cur;
      ghost var queues0, info0 := queues, info;
      MarkExit();
      var next;
      next, q, i := Choose();
      SwitchKeeps(q, i, prev, next, idle);
      PickedBest(q, i, prev, idle, next);
      SwitchMeans(queues0, info0, prev, idle, q, i, next);
      PrevKnown(q, i, prev, idle);
      if prev != NO_THREAD && prev != next { LeaveThread(prev); }
      BegunFrom(i[next], prev != next);
      StartThread(next, prev != next);
      cur := next;
      assert info == NextInfo(i, prev, next);
    }

    /** The old thread is queued here or on another CPU; `finish_switch` frees its stack. */
    method LeaveThread(t: int)
      requires Marked() && Queued(queues, info) && t in info
      modifies `queues, `info, bitmap
      ensures Marked() && info == old(info)[t := LeftBehind(old(info)[t])]
      ensures queues == if old(info)[t].state == Running && old(info)[t].here
        then old(queues)[old(info)[t].prio := old(queues)[old(info)[t].prio] + [t]]
        else old(queues)
    {
      hide Queued;
      if info[t].state == Running {
        if info[t].here { Append(t); } else { info := info[t := info[t].(state := Away)]; }
      }
      info := info[t := info[t].(free := true)];
    }

    /** A new budget if there is none, and `switch_to_thread` */
    method StartThread(t: int, switched: bool)
      requires t in info
      modifies `info
      ensures info == old(info)[t := Begun(old(info)[t], switched)]
    {
      if info[t].budget == 0 { info := info[t := info[t].(budget := DEFAULT_BUDGET)]; }
      info := info[t := info[t].(state := Running)];
      if switched { info := info[t := info[t].(free := false)]; }
    }

    /** The budget part of `handle_timer_irq`, then `sched` as in `handle_irq`. */
    method Tick()
      requires Valid() && Funded() && cur in info && info[cur].state == Running
      modifies `cur, `queues, `info, bitmap
      ensures Valid() && Funded() && cur in info && info[cur].state == Running
      ensures Switched(Spent(old(info), old(cur)), old(cur), info, cur)
      ensures forall p :: old(TopGroup(queues, info, cur, p)) ==>
        TopGroup(queues, info, cur, p) && Group(queues, cur, p) == Turn(old(Group(queues, cur, p)))
    {
      hide NoDup, Without, Picked, Pruned, FirstFree, Survivors, Marked, IdleReady, CurrentOk, Queued, Best, Switched;
      ghost var queues0, info0, cur0 := queues, info, cur;
      SpendKeeps(queues, info, cur, idle);
      info := info[cur := info[cur].(budget := info[cur].budget - 1)];
      ghost var q, i := Sched();
      SwitchRuns(i, cur0, cur);
      forall p | TopGroup(queues0, info0, cur0, p)
        ensures TopGroup(queues, info, cur, p) && Group(queues, cur, p) == Turn(Group(queues0, cur0, p))
      {
        TickTurns(queues0, info0, cur0, idle, p, q, i, cur);
      }
    }

    /** As many ticks as there are threads in a top group: each runs exactly once, in order, and
    the group is as before. */
    method Round(ghost p: int) returns (ran: seq<int>)
      requires Valid() && Funded() && cur in info && info[cur].state == Running && TopGroup(queues, info, cur, p)
      modifies `cur, `queues, `info, bitmap
      ensures Valid() && Funded() && TopGroup(queues, info, cur, p)
      ensures ran == old(Group(queues, cur, p)) && Group(queues, cur, p) == old(Group(queues, cur, p))
    {
      hide TopGroup, Consistent, Marked, Group, Turn, Turned;
      ghost var g := Group(queues, cur, p);
      ran := [];
      TopSize(queues, info, cur, p);
      var n := |queues[info[cur].prio]| + 1;
      TurnedEnds(g);
      while |ran| < n
        invariant Valid() && Funded() && cur in info && info[cur].state == Running && TopGroup(queues, info, cur, p)
        invariant |ran| <= n == |g| && Group(queues, cur, p) == Turned(g, |ran|) && ran == g[..|ran|]
      {
        GroupHead(queues, cur, p);
        TurnedStep(g, |ran|);
        ran := ran + [cur];
        Tick();
      }
    }
  }

  /** The current thread and those of its queue. */
  ghost function Group(queues: seq<seq<int>>, cur: int, p: int): (g: seq<int>)
    ensures |g| >= 1
  {
    if 0 <= p < |queues| then [cur] + queues[p] else [cur]
  }

  /** A thread that is always ready to run. */
  ghost predicate Steady(info: Infos, t: int, p: int) {
    t in info && info[t].prio == p && info[t].here && !info[t].exiting && info[t].budget <= DEFAULT_BUDGET
  }

  /** The current thread and at least one other have the highest priority among the ready threads
  and are always ready, with their kernel stacks free while they do not run. */
  ghost predicate TopGroup(queues: seq<seq<int>>, info: Infos, cur: int, p: int) {
    && HighestIs(queues, p) && Steady(info, cur, p) && info[cur].state == Running && info[cur].budget == DEFAULT_BUDGET
    && forall t <- queues[p] :: Steady(info, t, p) && info[t].state == Ready && info[t].free
  }

  ghost function Turn(g: seq<int>): seq<int>
    requires g != []
  {
    g[1..] + [g[0]]
  }

  /** A group after `k` turns. */
  ghost function Turned(g: seq<int>, k: nat): seq<int>
    requires k <= |g|
  {
    g[k..] + g[..k]
  }

  lemma TurnedStep(g: seq<int>, k: nat)
    requires k < |g|
    ensures Turned(g, k) != [] && Turn(Turned(g, k)) == Turned(g, k + 1) && Turned(g, k)[0] == g[k]
      && g[..k + 1] == g[..k] + [g[k]]
  {
  }

  lemma TurnedEnds(g: seq<int>)
    ensures Turned(g, 0) == g == Turned(g, |g|) && g[..|g|] == g
  {
  }

  lemma TopSize(queues: seq<seq<int>>, info: Infos, cur: int, p: int)
    requires TopGroup(queues, info, cur, p)
    ensures info[cur].prio == p && 0 <= p < |queues| && |Group(queues, cur, p)| == |queues[p]| + 1
  {
  }

  lemma GroupHead(queues: seq<seq<int>>, cur: int, p: int)
    ensures Group(queues, cur, p)[0] == cur
  {
  }

  /** The current thread has used up one unit of its budget. */
  function Spent(info: Infos, cur: int): Infos
    requires cur in info && info[cur].budget > 0
  {
    info[cur := info[cur].(budget := info[cur].budget - 1)]
  }

  lemma SpendKeeps(queues: seq<seq<int>>, info: Infos, cur: int, idle: int)
    requires Consistent(queues, info, cur, idle) && cur in info && info[cur].state == Running && info[cur].budget > 0
    ensures Consistent(queues, Spent(info, cur), cur, idle)
  {
    hide NoDup;
  }

  lemma SwitchRuns(i: Infos, prev: int, next: int)
    requires next in i
    ensures next in NextInfo(i, prev, next) && NextInfo(i, prev, next)[next].state == Running
  {
  }

  /** When the current thread has used up its budget, the first of its queue takes over. */
  lemma TickTurns(queues: seq<seq<int>>, info: Infos, cur: int, idle: int, p: int, q: seq<seq<int>>, i: Infos,
    next: int)
    requires TopGroup(queues, info, cur, p) && Consistent(queues, info, cur, idle) && Consistent(q, i, cur, idle)
      && next in i
    requires Pruned(queues, Leaving(Spent(info, cur), cur), q, i)
    requires Picked(q, i, cur, idle, next)
    ensures TopGroup(NextQueues(q, i, cur, next), NextInfo(i, cur, next), next, p)
    ensures Group(NextQueues(q, i, cur, next), next, p) == Turn(Group(queues, cur, p))
  {
    hide NoDup, Without, IdleReady, CurrentOk, Survivors;
    var spent := Spent(info, cur);
    assert Leaving(spent, cur) == spent;
    SpentQueued(queues, info, cur);
    TopKept(queues, spent, q, i, p);
    assert i[cur] == spent[cur];
    NotStays(q, i, cur, p);
    var x := queues[p][0];
    assert x in queues[p];
    assert FirstFree(q[p], i, cur) == x;
    NoThreadOut(q, i, cur, idle);
    HighestOnce(q, p);
    assert next == x;
    AfterTurn(q, i, cur, p, x);
  }

  lemma HighestOnce(q: seq<seq<int>>, p: int)
    requires HighestIs(q, p)
    ensures forall h :: HighestIs(q, h) ==> h == p
  {
  }

  lemma NoThreadOut(q: seq<seq<int>>, i: Infos, cur: int, idle: int)
    requires Consistent(q, i, cur, idle)
    ensures NO_THREAD !in i
  {
  }

  lemma SpentQueued(queues: seq<seq<int>>, info: Infos, cur: int)
    requires Queued(queues, info) && cur in info && info[cur].state == Running && info[cur].budget > 0
    ensures Queued(queues, Spent(info, cur))
  {
    hide NoDup;
  }

  /** The group after the switch to the first of its queue. */
  lemma AfterTurn(q: seq<seq<int>>, i: Infos, cur: int, p: int, x: int)
    requires Queued(q, i) && HighestIs(q, p) && q[p][0] == x && Steady(i, cur, p) && i[cur].state == Running
    requires forall t <- q[p] :: Steady(i, t, p) && i[t].state == Ready && i[t].free
    ensures x in i && TopGroup(NextQueues(q, i, cur, x), NextInfo(i, cur, x), x, p)
    ensures Group(NextQueues(q, i, cur, x), x, p) == Turn([cur] + q[p])
  {
    hide NoDup, Without;
    assert x in q[p];
    FirstOut(q[p]);
    assert cur !in q[p];
    var l := q[p][1..] + [cur];
    assert NextQueues(q, i, cur, x) == q[p := l];
    var j := NextInfo(i, cur, x);
    NoDupTail(q[p]);
    forall t <- l ensures Steady(j, t, p) && j[t].state == Ready && j[t].free {
      if t != cur { assert t in q[p]; }
    }
  }

  lemma FirstOut(l: seq<int>)
    requires NoDup(l) && l != []
    ensures Without(l, l[0]) == l[1..]
  {
  }

  /** The top queue of a steady group loses nobody. */
  lemma TopKept(queues: seq<seq<int>>, info: Infos, q: seq<seq<int>>, i: Infos, p: int)
    requires HighestIs(queues, p) && Queued(queues, info) && Pruned(queues, info, q, i)
    requires forall t <- queues[p] :: t in info && !info[t].exiting
    ensures HighestIs(q, p) && q[p] == queues[p] && forall t <- queues[p] :: t in i && i[t] == info[t]
  {
    hide NoDup;
    forall t <- queues[p] ensures t in i && i[t] == info[t] && i[t].state == Ready { }
    SurvivorsAll(queues[p], i);
  }
}
