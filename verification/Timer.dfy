/** The sorted sleep list of one CPU and its next timer interrupt (`timer.c`). Ticks are unbounded. */
module Timer {

  /** `struct sleep_state`: the thread and its `wakeup_tick` */
  datatype Sleeper = Sleeper(t: int, at: int)

  ghost predicate InOrder(l: seq<Sleeper>) {
    forall i, j :: 0 <= i < j < |l| ==> l[i].at <= l[j].at
  }

  ghost predicate NotBefore(l: seq<Sleeper>, bound: int) {
    forall i :: 0 <= i < |l| ==> bound <= l[i].at
  }

  /** Place `k` is behind every sleeper due no later than `at`, and before the others. */
  ghost predicate PlaceFor(l: seq<Sleeper>, k: int, at: int) {
    && 0 <= k <= |l|
    && (forall i :: 0 <= i < k ==> l[i].at <= at)
    && (forall i :: k <= i < |l| ==> at < l[i].at)
  }

  /** `list_del` of the sleeper of thread `t` */
  function Drop(l: seq<Sleeper>, t: int): seq<Sleeper> {
    if l == [] then [] else if l[0].t == t then l[1..] else [l[0]] + Drop(l[1..], t)
  }

  /** Exactly the first sleeper of `t` leaves, at place `k`; the others keep their order. */
  ghost predicate Removed(l: seq<Sleeper>, t: int, k: int, r: seq<Sleeper>) {
    && 0 <= k < |l| && l[k].t == t && (forall i :: 0 <= i < k ==> l[i].t != t)
    && r == l[..k] + l[k + 1..]
  }

  ghost predicate Sleeps(l: seq<Sleeper>, t: int) { exists i :: 0 <= i < |l| && l[i].t == t }

  lemma RemovedLater(l: seq<Sleeper>, t: int, k: int, d: seq<Sleeper>)
    requires l != [] && l[0].t != t && Removed(l[1..], t, k, d)
    ensures Removed(l, t, k + 1, [l[0]] + d)
  {
    var r := l[1..];
    forall i | 0 <= i < k + 1 ensures l[i].t != t {
      if i > 0 { assert r[i - 1] == l[i]; }
    }
    assert l[..k + 1] == [l[0]] + r[..k] && l[k + 2..] == r[k + 1..];
  }

  lemma SleepsLater(l: seq<Sleeper>, t: int)
    requires l != [] && l[0].t != t && Sleeps(l, t)
    ensures Sleeps(l[1..], t)
  {
    var i :| 0 <= i < |l| && l[i].t == t;
    assert l[1..][i - 1].t == t;
  }

  lemma {:induction false} DropIs(l: seq<Sleeper>, t: int)
    ensures Sleeps(l, t) ==> exists k :: Removed(l, t, k, Drop(l, t))
    ensures !Sleeps(l, t) ==> Drop(l, t) == l
  {
    if l != [] && l[0].t == t {
      assert Removed(l, t, 0, Drop(l, t));
    } else if l != [] && Sleeps(l, t) {
      hide Removed, Sleeps;
      SleepsLater(l, t);
      DropIs(l[1..], t);
      var k :| Removed(l[1..], t, k, Drop(l[1..], t));
      RemovedLater(l, t, k, Drop(l[1..], t));
      assert Removed(l, t, k + 1, Drop(l, t));
    } else if l != [] {
      assert forall i :: 0 <= i < |l| - 1 ==> l[1..][i] == l[i + 1];
      DropIs(l[1..], t);
    }
  }

  lemma RemovedKeeps(l: seq<Sleeper>, t: int, k: int, r: seq<Sleeper>, bound: int)
    requires Removed(l, t, k, r) && InOrder(l) && NotBefore(l, bound)
    ensures InOrder(r) && NotBefore(r, bound)
  {
    assert forall i :: 0 <= i < |r| ==> r[i] == l[if i < k then i else i + 1];
  }

  lemma PlaceKeeps(l: seq<Sleeper>, k: int, x: Sleeper)
    requires InOrder(l) && PlaceFor(l, k, x.at)
    ensures InOrder(l[..k] + [x] + l[k..])
  {
    var r := l[..k] + [x] + l[k..];
    assert forall i :: 0 <= i < |r| ==> r[i] == if i < k then l[i] else if i == k then x else l[i - 1];
  }

  /** What is left after the sleepers due by `now`. */
  lemma CutKeeps(l: seq<Sleeper>, k: int, now: int)
    requires InOrder(l) && 0 <= k <= |l| && (k < |l| ==> now < l[k].at)
    ensures InOrder(l[k..]) && NotBefore(l[k..], now + 1)
  {
    assert forall i :: 0 <= i < |l| - k ==> l[k..][i] == l[k + i];
  }

  class TimeState {
    /** `next_expire` */
    var nextExpire: int
    /** `sleep_list`, first element first */
    var list: seq<Sleeper>
    /** TICK_MS in ticks */
    const tick: nat

    /** The list is sorted, and the timer interrupt comes no later than the first sleeper is due. */
    ghost predicate Valid() reads this {
      InOrder(list) && NotBefore(list, nextExpire)
    }

    constructor (tick: nat, first: int)
      ensures Valid() && list == [] && this.tick == tick
    {
      this.tick, nextExpire, list := tick, first, [];
    }

    /** `enqueue_sleeper` */
    method EnqueueSleeper(t: int, at: int)
      requires Valid()
      modifies this
      ensures Valid()
      ensures exists k :: PlaceFor(old(list), k, at) && list == old(list)[..k] + [Sleeper(t, at)] + old(list)[k..]
      ensures nextExpire == if at < old(nextExpire) then at else old(nextExpire)
    {
      var k := 0;
      while k < |list| && list[k].at <= at
        invariant 0 <= k <= |list|
        invariant forall i :: 0 <= i < k ==> list[i].at <= at
      {
        k := k + 1;
      }
      ghost var l := list;
      assert PlaceFor(l, k, at);
      PlaceKeeps(l, k, Sleeper(t, at));
      list := list[..k] + [Sleeper(t, at)] + list[k..];
      if nextExpire > at { nextExpire := at; }
    }

    /** `try_dequeue_sleeper` with the lock taken */
    method Dequeue(t: int)
      requires Valid()
      modifies `list
      ensures Valid()
      ensures if Sleeps(old(list), t) then exists k :: Removed(old(list), t, k, list) else list == old(list)
    {
      hide InOrder, NotBefore, Removed, Drop, Sleeps;
      ghost var l := list;
      DropIs(l, t);
      list := Drop(list, t);
      if Sleeps(l, t) {
        ghost var k :| Removed(l, t, k, list);
        RemovedKeeps(l, t, k, list, nextExpire);
      }
    }

    /** `get_next_tick_delta` at tick `now` */
    method NextTickDelta(now: int) returns (delta: nat)
      ensures delta <= tick && (delta > 0 && list != [] ==> now + delta <= list[0].at)
      ensures delta < tick ==> list != [] && list[0].at <= now + delta
    {
      delta := tick;
      if list == [] { return; }
      if now + tick > list[0].at {
        delta := if list[0].at > now then list[0].at - now else 0;
      }
    }

    /** The list part of `handle_timer_irq` at tick `now`, with the clock at `later` when the next
    interrupt is set: exactly the sleepers that are due are woken, in order. */
    method HandleTimerIrq(now: int, later: int) returns (woken: seq<Sleeper>)
      requires Valid() && now <= later
      modifies this
      ensures Valid() && woken + list == old(list)
      ensures forall i :: 0 <= i < |woken| ==> woken[i].at <= now
      ensures NotBefore(list, now + 1)
      ensures now <= nextExpire <= now + tick
      ensures nextExpire < now + tick ==> list != [] && list[0].at - nextExpire <= later - now
    {
      ghost var l := list;
      woken := [];
      while list != [] && list[0].at <= now
        invariant |woken| <= |l| && woken == l[..|woken|] && list == l[|woken|..]
        invariant forall i :: 0 <= i < |woken| ==> woken[i].at <= now
        decreases |list|
      {
        woken := woken + [list[0]];
        list := list[1..];
      }
      CutKeeps(l, |woken|, now);
      var delta := NextTickDelta(later);
      nextExpire := now + delta;
    }
  }
}
