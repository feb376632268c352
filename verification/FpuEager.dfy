/**
Eager FPU switching (`switch_context` in EAGER_FPU_MODE), the reference for the lazy machine:
the registers are saved and restored at every switch.
*/
module FpuEager {
  import opened FpuModel

  datatype Eager = Eager(
    cur: seq<int>,      // per CPU
    regs: seq<Regs>,    // per CPU
    user: seq<bool>,    // per thread
    saved: seq<Regs>,   // per thread
    on: seq<int>)       // per thread: the CPU it runs on

  ghost predicate Fits(m: Eager) {
    && |m.cur| == |m.regs| && |m.user| == |m.saved| == |m.on|
    && (forall c :: 0 <= c < |m.cur| && m.cur[c] != NONE ==> 0 <= m.cur[c] < |m.on| && m.on[m.cur[c]] == c)
    && (forall t :: 0 <= t < |m.on| && m.on[t] != NONE ==> 0 <= m.on[t] < |m.cur| && m.cur[m.on[t]] == t)
  }

  datatype Action = EagerUse(c: int, left: Regs) | EagerSwitch(c: int, t: int)

  ghost predicate May(m: Eager, a: Action) {
    && Fits(m) && 0 <= a.c < |m.cur|
    && (a.EagerUse? ==> m.cur[a.c] != NONE && m.user[m.cur[a.c]])
    && (a.EagerSwitch? ==> 0 <= a.t < |m.on| && m.on[a.t] == NONE)
  }

  /** `save_fpu_state` for the thread that CPU `c` leaves */
  ghost function SaveOld(m: Eager, c: int): Eager
    requires Fits(m) && 0 <= c < |m.cur|
  {
    if m.cur[c] == NONE then m
    else m.(saved := if m.user[m.cur[c]] then m.saved[m.cur[c] := m.regs[c]] else m.saved,
      on := m.on[m.cur[c] := NONE], cur := m.cur[c := NONE])
  }

  /** `restore_fpu_state` for the thread that CPU `c` goes to */
  ghost function RestoreNew(m: Eager, c: int, t: int): Eager
    requires Fits(m) && 0 <= c < |m.cur| && 0 <= t < |m.on|
  {
    m.(regs := if m.user[t] then m.regs[c := m.saved[t]] else m.regs, on := m.on[t := c], cur := m.cur[c := t])
  }

  ghost function Act(m: Eager, a: Action): Eager
    requires May(m, a)
  {
    match a
    case EagerUse(c, left) => m.(regs := m.regs[c := left])
    case EagerSwitch(c, t) => SaveKeeps(m, c); RestoreNew(SaveOld(m, c), c, t)
  }

  ghost function Held(m: Eager, t: int): Regs
    requires Fits(m) && 0 <= t < |m.on|
  {
    if m.on[t] == NONE then m.saved[t] else m.regs[m.on[t]]
  }

  ghost predicate Holds(m: Eager, h: seq<Entry>) {
    Fits(m) && Faithful(h) && forall t :: 0 <= t < |m.on| && m.user[t] ==> Held(m, t) == LastLeft(h, t)
  }

  lemma SaveKeeps(m: Eager, c: int)
    requires Fits(m) && 0 <= c < |m.cur|
    ensures Fits(SaveOld(m, c)) && SaveOld(m, c).cur[c] == NONE
    ensures forall t :: 0 <= t < |m.on| && m.user[t] ==> Held(SaveOld(m, c), t) == Held(m, t)
    ensures forall t :: 0 <= t < |m.on| && m.on[t] == NONE ==> SaveOld(m, c).on[t] == NONE
  {
  }

  lemma RestoreKeeps(m: Eager, c: int, t: int)
    requires Fits(m) && 0 <= c < |m.cur| && m.cur[c] == NONE && 0 <= t < |m.on| && m.on[t] == NONE
    ensures Fits(RestoreNew(m, c, t))
    ensures forall u :: 0 <= u < |m.on| && m.user[u] ==> Held(RestoreNew(m, c, t), u) == Held(m, u)
  {
  }

  ghost function Log(m: Eager, h: seq<Entry>, a: Action): seq<Entry>
    requires May(m, a)
  {
    if a.EagerUse? then h + [Entry(m.cur[a.c], m.regs[a.c], a.left)] else h
  }

  lemma ActKeeps(m: Eager, h: seq<Entry>, a: Action)
    requires Holds(m, h) && May(m, a)
    ensures Holds(Act(m, a), Log(m, h, a))
  {
    match a {
      case EagerUse(c, left) =>
        var x := Entry(m.cur[c], m.regs[c], left);
        FaithfulMore(h, x);
        forall t ensures LastLeft(h + [x], t) == if x.t == t then x.left else LastLeft(h, t) { LastLeftMore(h, x, t); }
      case EagerSwitch(c, t) =>
        hide SaveOld, RestoreNew;
        SaveKeeps(m, c);
        RestoreKeeps(SaveOld(m, c), c, t);
        SameThreads(m, c, t);
    }
  }

  lemma SameThreads(m: Eager, c: int, t: int)
    requires May(m, EagerSwitch(c, t))
    ensures Act(m, EagerSwitch(c, t)).user == m.user && |Act(m, EagerSwitch(c, t)).on| == |m.on|
    ensures SaveOld(m, c).user == m.user && |SaveOld(m, c).on| == |m.on| && |SaveOld(m, c).cur| == |m.cur|
  {
  }

  ghost predicate EagerReaches(m: Eager, acts: seq<Action>, m': Eager, h: seq<Entry>) {
    if acts == [] then m' == m && h == []
    else
      var a := acts[|acts| - 1];
      exists p, g :: EagerReaches(m, acts[..|acts| - 1], p, g) && May(p, a) && m' == Act(p, a) && h == Log(p, g, a)
  }

  ghost predicate EagerStart(m: Eager) {
    Fits(m) && forall t :: 0 <= t < |m.on| ==> m.on[t] == NONE && m.saved[t] == ZERO
  }

  lemma {:induction false} EveryEagerRun(m: Eager, acts: seq<Action>, m': Eager, h: seq<Entry>)
    requires EagerStart(m) && EagerReaches(m, acts, m', h)
    ensures Holds(m', h)
    decreases |acts|
  {
    hide Act, Log, May;
    if acts != [] {
      var a := acts[|acts| - 1];
      var p, g :| EagerReaches(m, acts[..|acts| - 1], p, g) && May(p, a) && m' == Act(p, a) && h == Log(p, g, a);
      EveryEagerRun(m, acts[..|acts| - 1], p, g);
      ActKeeps(p, g, a);
    }
  }

  /** The same threads use the FPU in the same order and leave the same values. */
  ghost predicate SameUses(h: seq<Entry>, k: seq<Entry>) {
    |h| == |k| && forall i :: 0 <= i < |h| ==> h[i].t == k[i].t && h[i].left == k[i].left
  }

  lemma {:induction false} SameLast(h: seq<Entry>, k: seq<Entry>, t: int)
    requires SameUses(h, k)
    ensures LastLeft(h, t) == LastLeft(k, t)
  {
    if h != [] { SameLast(h[..|h| - 1], k[..|k| - 1], t); }
  }

  /** Runs that make the same uses find the same registers, whatever the CPUs, migrations and
  releases on either side. */
  lemma SameUsesSameRegisters(m: Machine, es: seq<Event>, m': Machine, h: seq<Entry>,
                         e: Eager, acts: seq<Action>, e': Eager, k: seq<Entry>)
    requires Start(m) && Reaches(m, es, m', h)
    requires EagerStart(e) && EagerReaches(e, acts, e', k)
    requires SameUses(h, k)
    ensures h == k
  {
    hide Start, Reaches, EagerStart, EagerReaches, Inv, Fits;
    EveryRun(m, es, m', h);
    EveryEagerRun(e, acts, e', k);
    forall i | 0 <= i < |h| ensures h[i] == k[i] {
      SameLast(h[..i], k[..i], h[i].t);
    }
  }

  // ---- every lazy run has an eager one ----

  /** The CPU a thread runs on, if any. */
  ghost function RunsOn(p: Place): int { if p.Running? then p.cpu else NONE }

  /** The same threads run on the same CPUs. */
  ghost predicate Sim(m: Machine, e: Eager) {
    && Fits(e) && e.cur == m.cur && e.user == m.user && |e.on| == |m.place|
    && forall t :: 0 <= t < |e.on| ==> e.on[t] == RunsOn(m.place[t])
  }

  lemma SimSame(m: Machine, n: Machine, e: Eager)
    requires Sim(m, e) && n.cur == m.cur && n.user == m.user && |n.place| == |m.place|
    requires forall t :: 0 <= t < |m.place| ==> RunsOn(n.place[t]) == RunsOn(m.place[t])
    ensures Sim(n, e)
  {
  }

  /** Neither a trap nor a release moves a thread. */
  lemma StaysPut(m: Machine, c: int)
    requires Inv(m) && Cpu(m, c)
    ensures Release(m, c).cur == m.cur && Release(m, c).place == m.place
    ensures m.cur[c] != NONE ==> Trap(m, c).cur == m.cur && Trap(m, c).place == m.place
  {
    hide Agree, Homes, Guarded;
  }

  /** Steps other than a use and a switch are invisible to the eager machine. */
  lemma QuietStep(m: Machine, ev: Event, e: Eager)
    requires Inv(m) && Can(m, ev) && !ev.Use? && !ev.Resched? && Sim(m, e)
    ensures Sim(Step(m, ev), e)
  {
    hide Agree, Homes, Guarded, Bind, Release, Fits;
    match ev {
      case Fiq(c) => StaysPut(m, c); SimSame(m, Step(m, ev), e);
      case WakeUp(c, t) => BindKeeps(m, c, t); SimSame(m, Step(m, ev), e);
      case Insert(t) => SimSame(m, Step(m, ev), e);
      case Reserve(c, t) => SimSame(m, Step(m, ev), e);
      case SetAffinity(t, aff) => SimSame(m, Step(m, ev), e);
    }
  }

  /** What a switch does to the places of threads. */
  lemma ReschedPlaces(m: Machine, c: int, t: int, keep: bool)
    requires Inv(m) && Can(m, Resched(c, t, keep))
    ensures var r := Step(m, Resched(c, t, keep));
      && m.cur[c] != t && r.cur == m.cur[c := t] && RunsOn(m.place[t]) == NONE && r.place[t] == Running(c)
      && (m.cur[c] != NONE ==> Thread(m, m.cur[c]) && RunsOn(r.place[m.cur[c]]) == NONE)
      && forall u :: Thread(m, u) && u != t && u != m.cur[c] ==> r.place[u] == m.place[u]
  {
    hide Agree, Guarded, Bind;
    if keep && m.cur[c] != NONE { BindKeeps(m, c, m.cur[c]); }
  }

  lemma SwitchSim(m: Machine, c: int, t: int, keep: bool, e: Eager)
    requires Inv(m) && Can(m, Resched(c, t, keep)) && Sim(m, e)
    ensures May(e, EagerSwitch(c, t)) && Sim(Step(m, Resched(c, t, keep)), Act(e, EagerSwitch(c, t)))
  {
    hide Step, Inv;
    ReschedPlaces(m, c, t, keep);
    SaveKeeps(e, c);
    RestoreKeeps(SaveOld(e, c), c, t);
  }

  /** A use finds the same registers on both machines. */
  lemma UseSim(m: Machine, h: seq<Entry>, c: int, left: Regs, e: Eager)
    requires Matches(m, h) && Holds(e, h) && Can(m, Use(c, left)) && Sim(m, e)
    ensures May(e, EagerUse(c, left)) && Sim(Step(m, Use(c, left)), Act(e, EagerUse(c, left)))
    ensures Record(m, h, Use(c, left)) == Log(e, h, EagerUse(c, left))
  {
    hide Agree, Homes, Guarded, Trap, Content, Seen;
    CanUse(m, Use(c, left));
    SeesOwn(m, c);
    StaysPut(m, c);
  }

  ghost predicate Follows(m: Machine, e: Eager, acts: seq<Action>, e': Eager, h: seq<Entry>) {
    EagerStart(e) && EagerReaches(e, acts, e', h) && Sim(m, e')
  }

  lemma EagerMore(e: Eager, acts: seq<Action>, p: Eager, h: seq<Entry>, a: Action)
    requires EagerReaches(e, acts, p, h) && May(p, a)
    ensures EagerReaches(e, acts + [a], Act(p, a), Log(p, h, a))
  {
    hide Act, Log, May;
    var l := acts + [a];
    assert l[..|l| - 1] == acts && l[|l| - 1] == a;
    assert EagerReaches(e, l[..|l| - 1], p, h);
  }

  /** The eager machine follows one step of the lazy one. */
  lemma FollowStep(m: Machine, h: seq<Entry>, ev: Event, e: Eager, acts: seq<Action>, p: Eager)
    returns (more: seq<Action>, q: Eager)
    requires Matches(m, h) && Can(m, ev) && Follows(m, e, acts, p, h)
    ensures Follows(Step(m, ev), e, more, q, Record(m, h, ev))
  {
    hide Matches, Inv, Step, Act, Sim, EagerReaches, EagerStart, Can, May, Holds, Shaped;
    EveryEagerRun(e, acts, p, h);
    MatchesInv(m, h);
    match ev {
      case Use(c, left) =>
        UseSim(m, h, c, left, p);
        EagerMore(e, acts, p, h, EagerUse(c, left));
        more, q := acts + [EagerUse(c, left)], Act(p, EagerUse(c, left));
      case Resched(c, t, keep) =>
        SwitchSim(m, c, t, keep, p);
        EagerMore(e, acts, p, h, EagerSwitch(c, t));
        more, q := acts + [EagerSwitch(c, t)], Act(p, EagerSwitch(c, t));
      case Fiq(_) => QuietStep(m, ev, p); more, q := acts, p;
      case WakeUp(_, _) => QuietStep(m, ev, p); more, q := acts, p;
      case Insert(_) => QuietStep(m, ev, p); more, q := acts, p;
      case Reserve(_, _) => QuietStep(m, ev, p); more, q := acts, p;
      case SetAffinity(_, _) => QuietStep(m, ev, p); more, q := acts, p;
    }
  }

  /** Lazy switching refines eager switching: for every lazy run there is an eager run with the
  same threads on the same CPUs and the same history of register values seen and left. */
  lemma {:induction false} LazyRefinesEager(m: Machine, es: seq<Event>, m': Machine, h: seq<Entry>)
    returns (e: Eager, acts: seq<Action>, e': Eager)
    requires Start(m) && Reaches(m, es, m', h)
    ensures e.cur == m.cur && e.user == m.user
    ensures Follows(m', e, acts, e', h)
    decreases |es|
  {
    if es == [] {
      e := Eager(m.cur, m.regs, m.user, m.saved, seq(|m.place|, _ => NONE));
      acts, e' := [], e;
    } else {
      hide Step, Matches, Record, Inv, Shaped, Can, Follows, Start;
      var ev := es[|es| - 1];
      var p, g :| Reaches(m, es[..|es| - 1], p, g) && Shaped(p) && Can(p, ev) && m' == Step(p, ev)
        && h == Record(p, g, ev);
      EveryRun(m, es[..|es| - 1], p, g);
      e, acts, e' := LazyRefinesEager(m, es[..|es| - 1], p, g);
      acts, e' := FollowStep(p, g, ev, e, acts, e');
    }
  }
}
