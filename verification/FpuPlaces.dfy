/**
Where threads go and who owns an FPU, said of each step without the functions that compute it: an FPU
owner stays with its FPU, a thread with an affinity goes there, and any other one stays.
*/
module FpuPlaces {
  import opened FpuModel

  /** The CPU on which a thread is to run that CPU `c` wakes or leaves. */
  ghost function Home(m: Machine, c: int, t: int): int
    requires Sized(m) && Thread(m, t)
  {
    if m.isOwner[t] != NONE && m.isOwner[t] != c then m.isOwner[t]
    else if m.affinity[t] != NO_AFF then m.affinity[t]
    else c
  }

  /** Thread `t` owns the FPU of CPU `c` and is to run elsewhere. */
  ghost predicate Yields(m: Machine, c: int, t: int)
    requires Sized(m) && Thread(m, t)
  {
    m.isOwner[t] == c && m.affinity[t] != NO_AFF && m.affinity[t] != c
  }

  /** `isOwner` after CPU `c` has made thread `t` ready. */
  ghost function Yielded(m: Machine, c: int, t: int): seq<int>
    requires Sized(m) && Thread(m, t)
  {
    if Yields(m, c, t) then m.isOwner[t := NONE] else m.isOwner
  }

  lemma ShapedSized(m: Machine)
    requires Shaped(m)
    ensures Sized(m)
  {
  }

  lemma BindMeans(m: Machine, c: int, t: int)
    requires Inv(m) && Cpu(m, c) && Thread(m, t)
    ensures QueueOf(c, Bind(m, c, t).1) == Home(m, c, t)
    ensures Bind(m, c, t).1 == NO_AFF <==> m.isOwner[t] == NONE && m.affinity[t] == NO_AFF
    ensures Bind(m, c, t).0.isOwner == Yielded(m, c, t)
    ensures Bind(m, c, t).0.place == m.place && Bind(m, c, t).0.cur == m.cur && Bind(m, c, t).0.affinity == m.affinity
  {
    hide Homes, Guarded;
  }

  /** The places of all threads after a step. */
  ghost function Places(m: Machine, e: Event): seq<Place>
    requires Shaped(m) && Can(m, e)
  {
    match e
    case Use(_, _) => m.place
    case Fiq(_) => m.place
    case SetAffinity(_, _) => m.place
    case WakeUp(c, t) => m.place[t := Bound(Home(m, c, t))]
    case Insert(t) => m.place[t := Queued(m.place[t].cpu)]
    case Reserve(c, t) => m.place[t := Bound(c)]
    case Resched(c, t, keep) =>
      if m.cur[c] == NONE then m.place[t := Running(c)]
      else m.place[m.cur[c] := if keep then Queued(Home(m, c, m.cur[c])) else Waiting][t := Running(c)]
  }

  /** `is_fpu_owner` of all threads after a step. */
  ghost function Owners(m: Machine, e: Event): seq<int>
    requires Shaped(m) && Can(m, e)
  {
    match e
    case Use(c, _) =>
      if !m.disabled[c] || m.owner[c] == m.cur[c] then m.isOwner
      else if m.owner[c] == NONE then m.isOwner[m.cur[c] := c]
      else m.isOwner[m.owner[c] := NONE][m.cur[c] := c]
    case Fiq(c) => if m.owner[c] == NONE then m.isOwner else m.isOwner[m.owner[c] := NONE]
    case WakeUp(c, t) => Yielded(m, c, t)
    case Resched(c, _, keep) => if keep && m.cur[c] != NONE then Yielded(m, c, m.cur[c]) else m.isOwner
    case Insert(_) => m.isOwner
    case Reserve(_, _) => m.isOwner
    case SetAffinity(_, _) => m.isOwner
  }

  /** What a step does, apart from register contents. */
  lemma StepMeans(m: Machine, e: Event)
    requires Inv(m) && Can(m, e)
    ensures Step(m, e).place == Places(m, e)
    ensures Step(m, e).isOwner == Owners(m, e)
    ensures Step(m, e).cur == if e.Resched? then m.cur[e.c := e.t] else m.cur
    ensures Step(m, e).affinity == if e.SetAffinity? then m.affinity[e.t := e.aff] else m.affinity
  {
    hide *;
    InvAgree(m);
    StepPlaces(m, e);
    StepOwners(m, e);
  }

  lemma StepPlaces(m: Machine, e: Event)
    requires Inv(m) && Can(m, e)
    ensures Step(m, e).place == Places(m, e)
    ensures Step(m, e).cur == if e.Resched? then m.cur[e.c := e.t] else m.cur
    ensures Step(m, e).affinity == if e.SetAffinity? then m.affinity[e.t := e.aff] else m.affinity
  {
    hide Homes, Guarded, Bind, Yielded, Home, Agree;
    if e.WakeUp? { BindMeans(m, e.c, e.t); }
    if e.Resched? { ReschedMeans(m, e.c, e.t, e.keep); }
  }

  lemma ReschedMeans(m: Machine, c: int, t: int, keep: bool)
    requires Inv(m) && Can(m, Resched(c, t, keep))
    ensures var r := Step(m, Resched(c, t, keep));
      r.place == Places(m, Resched(c, t, keep)) && r.cur == m.cur[c := t] && r.affinity == m.affinity
  {
    hide Homes, Guarded, Bind, Yielded, Home, Agree;
    if m.cur[c] != NONE { BindMeans(m, c, m.cur[c]); }
  }

  /** Where the thread is that CPU `c` ran in state `m` and has left. */
  ghost predicate Left(m: Machine, c: int, keep: bool, place: seq<Place>)
    requires Shaped(m) && Cpu(m, c) && |place| == |m.place|
  {
    m.cur[c] != NONE ==> place[m.cur[c]] == if keep then Queued(Home(m, c, m.cur[c])) else Waiting
  }

  lemma SameLeft(m: Machine, n: Machine, c: int, keep: bool, place: seq<Place>)
    requires Shaped(m) && Shaped(n) && Cpu(m, c) && |m.place| == |n.place| == |place|
    requires n.cur == m.cur && n.isOwner == m.isOwner && n.affinity == m.affinity && Left(n, c, keep, place)
    ensures Left(m, c, keep, place)
  {
  }

  /** A switch leaves the threads it is not about where they are. */
  lemma OthersStay(m: Machine, c: int, t: int, keep: bool)
    requires Inv(m) && Can(m, Resched(c, t, keep))
    ensures var p := Places(m, Resched(c, t, keep));
      && |p| == |m.place| && Cpu(m, c) && Thread(m, t) && p[t] == Running(c) && Left(m, c, keep, p)
      && forall u :: Thread(m, u) && u != t && u != m.cur[c] ==> p[u] == m.place[u]
  {
    hide Home, Agree, Guarded;
  }

  lemma StepOwners(m: Machine, e: Event)
    requires Inv(m) && Can(m, e)
    ensures Step(m, e).isOwner == Owners(m, e)
  {
    hide Homes, Guarded, Bind, Yielded, Home;
    if e.WakeUp? { BindMeans(m, e.c, e.t); }
    if e.Resched? && m.cur[e.c] != NONE { BindMeans(m, e.c, m.cur[e.c]); }
  }

  // ---- whole runs ----

  /** The affinity a thread was last given, `a` at first. */
  ghost function LastAffinity(es: seq<Event>, t: int, a: int): int {
    if es == [] then a
    else
      var e := es[|es| - 1];
      if e.SetAffinity? && e.t == t then e.aff else LastAffinity(es[..|es| - 1], t, a)
  }

  /** The thread a CPU last switched to. */
  ghost function LastSwitch(es: seq<Event>, c: int): int {
    if es == [] then NONE
    else
      var e := es[|es| - 1];
      if e.Resched? && e.c == c then e.t else LastSwitch(es[..|es| - 1], c)
  }

  /** In every run a thread has the affinity it was last given and a CPU runs the thread it last switched to. */
  lemma {:induction false} EveryRunPlaces(m: Machine, es: seq<Event>, m': Machine, h: seq<Entry>)
    requires Start(m) && Reaches(m, es, m', h)
    ensures Inv(m') && |m'.place| == |m.place| && |m'.cur| == |m.cur|
    ensures forall t :: Thread(m, t) ==> m'.affinity[t] == LastAffinity(es, t, m.affinity[t])
    ensures forall c :: Cpu(m, c) ==> m'.cur[c] == LastSwitch(es, c)
    decreases |es|
  {
    hide Step, Record, Inv, Can, Matches, Places, Owners;
    EveryRun(m, es, m', h);
    MatchesInv(m', h);
    InvAgree(m');
    if es != [] {
      var e := es[|es| - 1];
      var p, g :| Reaches(m, es[..|es| - 1], p, g) && Shaped(p) && Can(p, e) && m' == Step(p, e)
        && h == Record(p, g, e);
      EveryRunPlaces(m, es[..|es| - 1], p, g);
      StepMeans(p, e);
    }
  }
}
