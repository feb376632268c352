/**
Lazy FPU switching (`fpu.c`, `sched.c`) as a state machine over any number of CPUs and threads.

Threads and CPUs are numbered; -1 stands for none. A step is one trap, one register use, one
FIQ, or one scheduler action of one CPU. A thread that a scheduler action has bound to a CPU but
not yet queued or run there is `Bound`, so steps of other CPUs may come in between.
*/
module FpuModel {
  type Regs = seq<int>

  /** The cleared register area of a new thread. */
  const ZERO: Regs := []

  const NONE := -1
  const NO_AFF := -1

  datatype Place = Waiting | Bound(cpu: int) | Queued(cpu: int) | Running(cpu: int)

  datatype Machine = Machine(
    cur: seq<int>,          // per CPU: current_threads
    owner: seq<int>,        // per CPU: fpu_owner
    disabled: seq<bool>,    // per CPU: fpu_disable
    regs: seq<Regs>,        // per CPU: the FPU registers
    user: seq<bool>,        // per thread: type > TYPE_KERNEL
    isOwner: seq<int>,      // per thread: is_fpu_owner
    saved: seq<Regs>,       // per thread: fpu_state
    affinity: seq<int>,     // per thread
    place: seq<Place>)      // per thread

  ghost predicate Cpu(m: Machine, c: int) { 0 <= c < |m.cur| }

  ghost predicate Thread(m: Machine, t: int) { 0 <= t < |m.place| }

  ghost predicate Sized(m: Machine) {
    && |m.cur| == |m.owner| == |m.disabled| == |m.regs|
    && |m.place| == |m.user| == |m.isOwner| == |m.saved| == |m.affinity|
  }

  ghost predicate Shaped(m: Machine) {
    && Sized(m)
    && (forall c :: Cpu(m, c) ==> m.cur[c] == NONE || Thread(m, m.cur[c]))
    && (forall c :: Cpu(m, c) ==> m.owner[c] == NONE || Thread(m, m.owner[c]))
    && (forall t :: Thread(m, t) ==> m.isOwner[t] == NONE || Cpu(m, m.isOwner[t]))
    && (forall t :: Thread(m, t) ==> m.affinity[t] == NO_AFF || Cpu(m, m.affinity[t]))
  }

  // ---- the invariant ----

  /** `is_fpu_owner` and `fpu_owner` agree, and only user threads own an FPU. */
  ghost predicate Agree(m: Machine)
    requires Shaped(m)
  {
    && (forall t :: Thread(m, t) ==>
       m.isOwner[t] == NONE || (Cpu(m, m.isOwner[t]) && m.user[t] && m.owner[m.isOwner[t]] == t))
    && (forall c :: Cpu(m, c) ==> m.owner[c] == NONE || (Thread(m, m.owner[c]) && m.isOwner[m.owner[c]] == c))
  }

  /** Thread `t` may be at place `p`: an FPU owner is on no other CPU than its own. */
  ghost predicate At(m: Machine, t: int, p: Place)
    requires Shaped(m) && Thread(m, t)
  {
    p != Waiting ==>
      && Cpu(m, p.cpu)
      && (m.isOwner[t] == NONE || m.isOwner[t] == p.cpu)
      && (p.Running? ==> m.cur[p.cpu] == t)
  }

  /** Every thread is where it may be, and the current thread of a CPU runs there. */
  ghost predicate Homes(m: Machine)
    requires Shaped(m)
  {
    && (forall t :: Thread(m, t) ==> At(m, t, m.place[t]))
    && (forall c :: Cpu(m, c) && m.cur[c] != NONE ==> m.place[m.cur[c]] == Running(c))
  }

  /** Where the FPU is enabled, a user thread that runs there owns it. */
  ghost predicate Guarded(m: Machine)
    requires Shaped(m)
  {
    forall c :: Cpu(m, c) && !m.disabled[c] && m.cur[c] != NONE && m.user[m.cur[c]] ==> m.owner[c] == m.cur[c]
  }

  ghost predicate Inv(m: Machine) {
    Shaped(m) && Agree(m) && Homes(m) && Guarded(m)
  }

  /** The registers of thread `t`, wherever they are. */
  ghost function Content(m: Machine, t: int): Regs
    requires Shaped(m) && Thread(m, t)
  {
    if m.isOwner[t] == NONE then m.saved[t] else m.regs[m.isOwner[t]]
  }

  ghost predicate SameContents(m: Machine, m': Machine)
    requires Inv(m) && Inv(m')
  {
    |m.place| == |m'.place| && forall t :: Thread(m, t) && m.user[t] ==> Content(m', t) == Content(m, t)
  }

  // ---- fpu.c ----

  /** `save_fpu_state` on CPU `c` */
  ghost function Save(m: Machine, c: int, t: int): Machine
    requires Sized(m) && Cpu(m, c) && Thread(m, t)
  {
    if m.user[t] then m.(saved := m.saved[t := m.regs[c]]) else m
  }

  /** `restore_fpu_state` on CPU `c` */
  ghost function Restore(m: Machine, c: int, t: int): Machine
    requires Sized(m) && Cpu(m, c) && Thread(m, t)
  {
    if m.user[t] then m.(regs := m.regs[c := m.saved[t]]) else m
  }

  /** The owner of CPU `c`, if any, gives the FPU up. */
  ghost function GiveUp(m: Machine, c: int): (r: Machine)
    requires Shaped(m) && Cpu(m, c)
    ensures Shaped(r) && r.user == m.user && |r.place| == |m.place| && |r.cur| == |m.cur|
  {
    if m.owner[c] == NONE then m
    else
      var t := m.owner[c];
      var s := Save(m, c, t);
      s.(isOwner := s.isOwner[t := NONE], owner := s.owner[c := NONE])
  }

  /** `save_and_release_fpu_owner` */
  ghost function Release(m: Machine, c: int): (r: Machine)
    requires Shaped(m) && Cpu(m, c)
    ensures Shaped(r) && r.user == m.user && |r.place| == |m.place| && |r.cur| == |m.cur|
  {
    if m.owner[c] == NONE then m else
      var g := GiveUp(m, c);
      g.(disabled := g.disabled[c := true])
  }

  ghost function Enable(m: Machine, c: int): (r: Machine)
    requires Shaped(m) && Cpu(m, c)
    ensures Shaped(r) && r.user == m.user && |r.place| == |m.place| && |r.cur| == |m.cur|
  {
    m.(disabled := m.disabled[c := false])
  }

  /** The running thread takes the FPU of CPU `c` and restores its registers. */
  ghost function Take(m: Machine, c: int): (r: Machine)
    requires Shaped(m) && Cpu(m, c) && m.cur[c] != NONE
    ensures Shaped(r) && r.user == m.user && |r.place| == |m.place| && |r.cur| == |m.cur|
  {
    var r := Restore(m.(owner := m.owner[c := m.cur[c]]), c, m.cur[c]);
    r.(isOwner := r.isOwner[r.cur[c] := c])
  }

  /** `change_fpu_owner`, the handler of FPU traps */
  ghost function Trap(m: Machine, c: int): (r: Machine)
    requires Shaped(m) && Cpu(m, c) && m.cur[c] != NONE
    ensures Shaped(r) && r.user == m.user && |r.place| == |m.place| && |r.cur| == |m.cur|
  {
    if m.owner[c] == m.cur[c] then Enable(m, c) else Enable(Take(GiveUp(m, c), c), c)
  }

  // ---- sched.c ----

  /** `get_cpubind` on CPU `c`: a local owner whose affinity is elsewhere is released first. */
  ghost function Bind(m: Machine, c: int, t: int): (r: (Machine, int))
    requires Shaped(m) && Cpu(m, c) && Thread(m, t)
    ensures Shaped(r.0) && r.0.user == m.user && |r.0.place| == |m.place| && |r.0.cur| == |m.cur|
  {
    if m.isOwner[t] < 0 then (m, m.affinity[t])
    else if m.isOwner[t] == c then
      if m.affinity[t] == c || m.affinity[t] == NO_AFF then (m, c)
      else (if m.owner[c] == t then Release(m, c) else m, m.affinity[t])
    else (m, m.isOwner[t])
  }

  /** The CPU whose ready queue a thread goes to. */
  ghost function QueueOf(c: int, bind: int): int {
    if bind == NO_AFF then c else bind
  }

  ghost function Put(m: Machine, t: int, p: Place): (r: Machine)
    requires Shaped(m) && Thread(m, t)
    ensures Shaped(r) && r.user == m.user && |r.place| == |m.place| && |r.cur| == |m.cur|
  {
    m.(place := m.place[t := p])
  }

  /** `sched_enqueue` on CPU `c`, up to the choice of the queue */
  ghost function Wake(m: Machine, c: int, t: int): (r: Machine)
    requires Shaped(m) && Cpu(m, c) && Thread(m, t)
    ensures Shaped(r) && r.user == m.user && |r.place| == |m.place| && |r.cur| == |m.cur|
  {
    var b := Bind(m, c, t);
    Put(b.0, t, Bound(QueueOf(c, b.1)))
  }

  /** `sched_enqueue` on CPU `c` as a whole: the two steps `WakeUp` and `Insert` in a row */
  ghost function Enqueued(m: Machine, c: int, t: int): (r: Machine)
    requires Shaped(m) && Cpu(m, c) && Thread(m, t)
    ensures Shaped(r) && r.user == m.user && |r.place| == |m.place| && |r.cur| == |m.cur|
  {
    var b := Bind(m, c, t);
    Put(b.0, t, Queued(QueueOf(c, b.1)))
  }

  ghost function Disable(m: Machine, c: int): (r: Machine)
    requires Shaped(m) && Cpu(m, c)
    ensures Shaped(r) && r.user == m.user && |r.place| == |m.place| && |r.cur| == |m.cur|
  {
    m.(disabled := m.disabled[c := true])
  }

  /** `switch_to_thread` on CPU `c`, to another thread than before */
  ghost function SwitchTo(m: Machine, c: int, t: int): (r: Machine)
    requires Shaped(m) && Cpu(m, c) && Thread(m, t)
    ensures Shaped(r) && r.user == m.user && |r.place| == |m.place| && |r.cur| == |m.cur|
  {
    Put(m.(cur := m.cur[c := t]), t, Running(c))
  }

  /** The same with `switch_context`: the FPU is disabled for a user thread. */
  ghost function Switch(m: Machine, c: int, t: int): (r: Machine)
    requires Shaped(m) && Cpu(m, c) && Thread(m, t)
    ensures Shaped(r) && r.user == m.user && |r.place| == |m.place| && |r.cur| == |m.cur|
  {
    SwitchTo(if m.user[t] then Disable(m, c) else m, c, t)
  }

  /** The current thread of CPU `c` goes to place `p`. */
  ghost function Park(m: Machine, c: int, p: Place): (r: Machine)
    requires Shaped(m) && Cpu(m, c)
    ensures Shaped(r) && r.user == m.user && |r.place| == |m.place| && |r.cur| == |m.cur|
  {
    if m.cur[c] == NONE then m else Put(m.(cur := m.cur[c := NONE]), m.cur[c], p)
  }

  /** CPU `c` leaves its thread, which is queued again if it can still run and waits otherwise. */
  ghost function Leave(m: Machine, c: int, keep: bool): (r: Machine)
    requires Shaped(m) && Cpu(m, c)
    ensures Shaped(r) && r.user == m.user && |r.place| == |m.place| && |r.cur| == |m.cur|
  {
    if m.cur[c] == NONE then m
    else if keep then
      var b := Bind(m, c, m.cur[c]);
      Park(b.0, c, Queued(QueueOf(c, b.1)))
    else Park(m, c, Waiting)
  }

  datatype Event =
    | Use(c: int, left: Regs)            // the running user thread uses the FPU
    | Fiq(c: int)                        // the CPU leaves for the normal world
    | WakeUp(c: int, t: int)             // a waiting thread is made ready by CPU c
    | Insert(t: int)                     // ... and inserted in the queue it was bound to
    | Reserve(c: int, t: int)            // a direct switch checks its target
    | Resched(c: int, t: int, keep: bool) // CPU c switches to t
    | SetAffinity(t: int, aff: int)

  /** When a step can be taken. */
  ghost predicate Can(m: Machine, e: Event)
    requires Shaped(m)
  {
    match e
    case Use(c, _) => Cpu(m, c) && m.cur[c] != NONE && m.user[m.cur[c]]
    case Fiq(c) => Cpu(m, c)
    case WakeUp(c, t) => Cpu(m, c) && Thread(m, t) && m.place[t] == Waiting
    case Insert(t) => Thread(m, t) && m.place[t].Bound?
    case Reserve(c, t) => Cpu(m, c) && Thread(m, t) && m.place[t] == Waiting && (m.isOwner[t] < 0 || m.isOwner[t] == c)
    case Resched(c, t, _) => Cpu(m, c) && Thread(m, t) && (m.place[t] == Queued(c) || m.place[t] == Bound(c))
    case SetAffinity(t, aff) => Thread(m, t) && (aff == NO_AFF || Cpu(m, aff))
  }

  ghost function Step(m: Machine, e: Event): (r: Machine)
    requires Shaped(m) && Can(m, e)
    ensures Shaped(r) && r.user == m.user && |r.place| == |m.place| && |r.cur| == |m.cur|
  {
    match e
    case Use(c, left) => var r := if m.disabled[c] then Trap(m, c) else m; r.(regs := r.regs[c := left])
    case Fiq(c) => Release(m, c)
    case WakeUp(c, t) => Wake(m, c, t)
    case Insert(t) => Put(m, t, Queued(m.place[t].cpu))
    case Reserve(c, t) => Put(m, t, Bound(c))
    case Resched(c, t, keep) => Switch(Leave(m, c, keep), c, t)
    case SetAffinity(t, aff) => m.(affinity := m.affinity[t := aff])
  }

  /** What the running thread finds in the registers of CPU `c`. */
  ghost function Seen(m: Machine, c: int): Regs
    requires Shaped(m) && Cpu(m, c) && m.cur[c] != NONE
  {
    if m.disabled[c] then Trap(m, c).regs[c] else m.regs[c]
  }

  // ---- every step keeps the invariant and every thread's registers ----

  lemma GiveUpAgrees(m: Machine, c: int)
    requires Shaped(m) && Agree(m) && Cpu(m, c)
    ensures Agree(GiveUp(m, c)) && GiveUp(m, c).owner[c] == NONE && GiveUp(m, c).cur == m.cur
    ensures forall t :: Thread(m, t) && m.user[t] ==> Content(GiveUp(m, c), t) == Content(m, t)
  {
  }

  lemma GiveUpAt(m: Machine, c: int, t: int)
    requires Inv(m) && Cpu(m, c) && Thread(m, t)
    ensures GiveUp(m, c).place == m.place && At(GiveUp(m, c), t, m.place[t])
  {
    hide Agree, Guarded;
    assert At(m, t, m.place[t]);
  }

  lemma GiveUpGuarded(m: Machine, c: int)
    requires Shaped(m) && Guarded(m) && Cpu(m, c) && (m.disabled[c] || m.owner[c] == NONE || m.owner[c] != m.cur[c])
    ensures Guarded(GiveUp(m, c))
  {
  }

  lemma GiveUpHomes(m: Machine, c: int)
    requires Inv(m) && Cpu(m, c) && (m.disabled[c] || m.owner[c] == NONE || m.owner[c] != m.cur[c])
    ensures Homes(GiveUp(m, c)) && Guarded(GiveUp(m, c))
  {
    hide Agree, At, Guarded;
    GiveUpGuarded(m, c);
    forall t | Thread(m, t)
      ensures GiveUp(m, c).place == m.place
        && At(GiveUp(m, c), t, m.place[t])
    {
      GiveUpAt(m, c, t);
    }
  }

  lemma GiveUpKeeps(m: Machine, c: int)
    requires Inv(m) && Cpu(m, c) && (m.disabled[c] || m.owner[c] == NONE || m.owner[c] != m.cur[c])
    ensures Inv(GiveUp(m, c)) && SameContents(m, GiveUp(m, c)) && GiveUp(m, c).owner[c] == NONE
      && GiveUp(m, c).cur == m.cur
  {
    hide Agree, Homes, Guarded, Content, GiveUp;
    GiveUpAgrees(m, c);
    GiveUpHomes(m, c);
  }

  lemma ReleaseKeeps(m: Machine, c: int)
    requires Inv(m) && Cpu(m, c)
    ensures Inv(Release(m, c)) && SameContents(m, Release(m, c)) && Release(m, c).owner[c] == NONE
  {
    hide Agree, Homes, Guarded, Content;
    InvAgree(m);
    if m.owner[c] == NONE {
      ContentsSelf(m);
    } else {
      DisableKeeps(m, c);
      DisableFirst(m, c);
      GiveUpKeeps(Disable(m, c), c);
      SameContentsTrans(m, Disable(m, c), Release(m, c));
    }
  }

  /** Disabling the FPU before or after giving it up makes no difference. */
  lemma DisableFirst(m: Machine, c: int)
    requires Inv(m) && Cpu(m, c) && m.owner[c] != NONE
    ensures Agree(Disable(m, c)) && GiveUp(Disable(m, c), c) == Release(m, c)
  {
    hide Homes, Guarded;
  }

  lemma ContentsSelf(m: Machine)
    requires Inv(m)
    ensures SameContents(m, m)
  {
  }

  lemma SameContentsTrans(m: Machine, n: Machine, o: Machine)
    requires Inv(m) && Inv(n) && Inv(o) && SameContents(m, n) && SameContents(n, o) && m.user == n.user
    ensures SameContents(m, o)
  {
    hide Agree, Homes, Guarded, Content;
  }

  lemma TakeKeeps(m: Machine, c: int)
    requires Inv(m) && Cpu(m, c) && m.cur[c] != NONE && m.user[m.cur[c]] && m.owner[c] == NONE
    ensures Inv(Take(m, c)) && SameContents(m, Take(m, c)) && Take(m, c).owner[c] == m.cur[c] && Take(m, c).cur == m.cur
  {
    HasNoFpu(m, c);
  }

  lemma HasNoFpu(m: Machine, c: int)
    requires Inv(m) && Cpu(m, c) && m.cur[c] != NONE && m.owner[c] != m.cur[c]
    ensures m.isOwner[m.cur[c]] == NONE
  {
  }

  lemma EnableKeeps(m: Machine, c: int)
    requires Inv(m) && Cpu(m, c) && m.owner[c] == m.cur[c]
    ensures Inv(Enable(m, c)) && SameContents(m, Enable(m, c))
  {
  }

  lemma TrapKeeps(m: Machine, c: int)
    requires Inv(m) && Cpu(m, c) && m.cur[c] != NONE && m.user[m.cur[c]]
    ensures Inv(Trap(m, c)) && SameContents(m, Trap(m, c))
    ensures Trap(m, c).owner[c] == m.cur[c] && !Trap(m, c).disabled[c] && Trap(m, c).cur == m.cur
  {
    hide Take, GiveUp, Inv, Agree;
    InvAgree(m);
    if m.owner[c] == m.cur[c] {
      EnableKeeps(m, c);
    } else {
      GiveUpKeeps(m, c);
      TakeKeeps(GiveUp(m, c), c);
      EnableKeeps(Take(GiveUp(m, c), c), c);
      InvAgree(Trap(m, c));
      InvAgree(Take(GiveUp(m, c), c));
      InvAgree(GiveUp(m, c));
    }
  }

  lemma InvAgree(m: Machine)
    requires Inv(m)
    ensures Shaped(m) && Agree(m) && Sized(m)
  {
  }

  /** The fields after a trap, one by one. */
  lemma TrapFields(m: Machine, c: int)
    requires Inv(m) && Cpu(m, c) && m.cur[c] != NONE && m.user[m.cur[c]]
    ensures Sized(m) && Thread(m, m.cur[c]) && (m.owner[c] == NONE || (Thread(m, m.owner[c]) && m.user[m.owner[c]]))
    ensures var t, u := m.owner[c], m.cur[c];
      && (t == u ==> Trap(m, c) == m.(disabled := m.disabled[c := false]))
      && (t != u && t == NONE ==> Trap(m, c) == m.(disabled := m.disabled[c := false], owner := m.owner[c := u],
            isOwner := m.isOwner[u := c], regs := m.regs[c := m.saved[u]]))
      && (t != u && t != NONE ==> Trap(m, c) == m.(disabled := m.disabled[c := false], owner := m.owner[c := u],
            isOwner := m.isOwner[t := NONE][u := c], saved := m.saved[t := m.regs[c]], regs := m.regs[c := m.saved[u]]))
  {
    hide Homes, Guarded;
  }

  /** A thread using the FPU finds its own registers. */
  lemma SeesOwn(m: Machine, c: int)
    requires Inv(m) && Cpu(m, c) && m.cur[c] != NONE && m.user[m.cur[c]]
    ensures Seen(m, c) == Content(m, m.cur[c])
  {
    if m.disabled[c] { TrapKeeps(m, c); }
  }

  lemma BindKeeps(m: Machine, c: int, t: int)
    requires Inv(m) && Cpu(m, c) && Thread(m, t)
    ensures Inv(Bind(m, c, t).0) && SameContents(m, Bind(m, c, t).0) && Bind(m, c, t).0.cur == m.cur
    ensures Bind(m, c, t).0.place == m.place && Bind(m, c, t).0.user == m.user
    ensures Cpu(m, QueueOf(c, Bind(m, c, t).1))
    ensures Bind(m, c, t).0.isOwner[t] == NONE || Bind(m, c, t).0.isOwner[t] == QueueOf(c, Bind(m, c, t).1)
  {
    ReleaseKeeps(m, c);
  }

  lemma WakeKeeps(m: Machine, c: int, t: int)
    requires Inv(m) && Cpu(m, c) && Thread(m, t) && m.place[t] == Waiting
    ensures Inv(Wake(m, c, t)) && SameContents(m, Wake(m, c, t))
  {
    hide Bind, Guarded, Content;
    BindKeeps(m, c, t);
    PutKeeps(Bind(m, c, t).0, t, Bound(QueueOf(c, Bind(m, c, t).1)));
  }

  lemma EnqueuedKeeps(m: Machine, c: int, t: int)
    requires Inv(m) && Cpu(m, c) && Thread(m, t) && m.place[t] == Waiting
    ensures Inv(Enqueued(m, c, t)) && SameContents(m, Enqueued(m, c, t))
    ensures Can(m, WakeUp(c, t)) && Agree(Step(m, WakeUp(c, t))) && Can(Step(m, WakeUp(c, t)), Insert(t))
    ensures Enqueued(m, c, t) == Step(Step(m, WakeUp(c, t)), Insert(t))
  {
    hide Bind, Guarded, Content, Homes;
    InvAgree(m);
    BindKeeps(m, c, t);
    PutKeeps(Bind(m, c, t).0, t, Queued(QueueOf(c, Bind(m, c, t).1)));
    WakeKeeps(m, c, t);
    var p := Bind(m, c, t).0.place;
    assert p[t := Bound(QueueOf(c, Bind(m, c, t).1))][t := Queued(QueueOf(c, Bind(m, c, t).1))]
      == p[t := Queued(QueueOf(c, Bind(m, c, t).1))];
  }

  /** Ownership and contents do not depend on where threads are. */
  lemma OwnersSame(m: Machine, n: Machine)
    requires Shaped(m) && Agree(m) && Shaped(n) && |n.cur| == |m.cur| && |n.place| == |m.place|
    requires n.owner == m.owner && n.isOwner == m.isOwner && n.user == m.user && n.regs == m.regs && n.saved == m.saved
    ensures Agree(n) && forall t :: Thread(m, t) ==> Content(n, t) == Content(m, t)
  {
  }

  lemma ParkAt(m: Machine, c: int, p: Place, t: int)
    requires Inv(m) && Cpu(m, c) && m.cur[c] != NONE && !p.Running? && At(m, m.cur[c], p) && Thread(m, t)
    ensures At(Park(m, c, p), t, Park(m, c, p).place[t])
  {
    hide Agree, Guarded;
    assert At(m, t, m.place[t]) && At(m, m.cur[c], m.place[m.cur[c]]);
  }

  lemma ParkKeeps(m: Machine, c: int, p: Place)
    requires Inv(m) && Cpu(m, c) && m.cur[c] != NONE && !p.Running? && At(m, m.cur[c], p)
    ensures Inv(Park(m, c, p)) && SameContents(m, Park(m, c, p)) && Park(m, c, p).cur[c] == NONE
    ensures forall t :: Thread(m, t) && t != m.cur[c] ==> Park(m, c, p).place[t] == m.place[t]
  {
    hide Agree, Content, At;
    OwnersSame(m, Park(m, c, p));
    forall t | Thread(m, t) ensures At(Park(m, c, p), t, Park(m, c, p).place[t]) { ParkAt(m, c, p, t); }
  }

  lemma LeaveKeeps(m: Machine, c: int, keep: bool)
    requires Inv(m) && Cpu(m, c)
    ensures Inv(Leave(m, c, keep)) && SameContents(m, Leave(m, c, keep)) && Leave(m, c, keep).cur[c] == NONE
    ensures forall t :: Thread(m, t) && t != m.cur[c] ==> Leave(m, c, keep).place[t] == m.place[t]
  {
    hide Bind, Park, Agree, Homes, Guarded;
    InvAgree(m);
    if m.cur[c] == NONE {
    } else if keep {
      BindKeeps(m, c, m.cur[c]);
      ParkKeeps(Bind(m, c, m.cur[c]).0, c, Queued(QueueOf(c, Bind(m, c, m.cur[c]).1)));
    } else {
      ParkKeeps(m, c, Waiting);
    }
  }

  /** A thread that does not run moves to another place where it may be. */
  lemma PutKeeps(m: Machine, t: int, p: Place)
    requires Inv(m) && Thread(m, t) && !m.place[t].Running? && !p.Running? && At(m, t, p)
    ensures Inv(Put(m, t, p)) && SameContents(m, Put(m, t, p))
  {
    hide Agree, Content;
    OwnersSame(m, Put(m, t, p));
  }

  lemma AffinityKeeps(m: Machine, t: int, aff: int)
    requires Inv(m) && Can(m, SetAffinity(t, aff))
    ensures Inv(Step(m, SetAffinity(t, aff))) && SameContents(m, Step(m, SetAffinity(t, aff)))
  {
    hide Agree, Content;
    InvAgree(m);
    OwnersSame(m, Step(m, SetAffinity(t, aff)));
  }

  lemma DisableKeeps(m: Machine, c: int)
    requires Inv(m) && Cpu(m, c)
    ensures Inv(Disable(m, c)) && SameContents(m, Disable(m, c))
  {
    hide Agree, Content;
    OwnersSame(m, Disable(m, c));
  }

  lemma SwitchToAt(m: Machine, c: int, t: int, u: int)
    requires Inv(m) && Cpu(m, c) && Thread(m, t) && m.cur[c] == NONE
      && (m.place[t] == Queued(c) || m.place[t] == Bound(c)) && Thread(m, u)
    ensures At(SwitchTo(m, c, t), u, SwitchTo(m, c, t).place[u])
  {
    hide Agree, Guarded;
    assert At(m, u, m.place[u]) && At(m, t, m.place[t]);
  }

  lemma SwitchToKeeps(m: Machine, c: int, t: int)
    requires Inv(m) && Cpu(m, c) && Thread(m, t) && m.cur[c] == NONE
      && (m.place[t] == Queued(c) || m.place[t] == Bound(c))
    requires m.disabled[c] || !m.user[t]
    ensures Inv(SwitchTo(m, c, t)) && SameContents(m, SwitchTo(m, c, t))
  {
    hide Agree, Content, At;
    OwnersSame(m, SwitchTo(m, c, t));
    forall u | Thread(m, u) ensures At(SwitchTo(m, c, t), u, SwitchTo(m, c, t).place[u]) { SwitchToAt(m, c, t, u); }
  }

  lemma SwitchKeeps(m: Machine, c: int, t: int)
    requires Inv(m) && Cpu(m, c) && Thread(m, t) && m.cur[c] == NONE
      && (m.place[t] == Queued(c) || m.place[t] == Bound(c))
    ensures Inv(Switch(m, c, t)) && SameContents(m, Switch(m, c, t))
  {
    hide SwitchTo, Guarded, Agree, Homes;
    InvAgree(m);
    DisableKeeps(m, c);
    SwitchToKeeps(if m.user[t] then Disable(m, c) else m, c, t);
  }

  lemma ReschedKeeps(m: Machine, c: int, t: int, keep: bool)
    requires Inv(m) && Can(m, Resched(c, t, keep))
    ensures Inv(Switch(Leave(m, c, keep), c, t)) && SameContents(m, Switch(Leave(m, c, keep), c, t))
  {
    hide Leave, Switch, Guarded, Agree;
    InvAgree(m);
    LeaveKeeps(m, c, keep);
    SwitchKeeps(Leave(m, c, keep), c, t);
  }

  lemma StepKeeps(m: Machine, e: Event)
    requires Inv(m) && Can(m, e)
    ensures Inv(Step(m, e)) && |Step(m, e).place| == |m.place| && Step(m, e).user == m.user
    ensures !e.Use? ==> SameContents(m, Step(m, e))
    ensures e.Use? ==> forall t :: Thread(m, t) && m.user[t] ==>
      Content(Step(m, e), t) == if t == m.cur[e.c] then e.left else Content(m, t)
  {
    hide Trap, Release, Wake, Switch, Leave, Guarded, Agree, Content;
    InvAgree(m);
    match e {
      case Use(c, left) => UseKeeps(m, c, left);
      case Fiq(c) => ReleaseKeeps(m, c);
      case WakeUp(c, t) => WakeKeeps(m, c, t);
      case Insert(t) => PutKeeps(m, t, Queued(m.place[t].cpu));
      case Reserve(c, t) => if m.isOwner[t] < 0 { NoOwner(m, t); } PutKeeps(m, t, Bound(c));
      case Resched(c, t, keep) => ReschedKeeps(m, c, t, keep);
      case SetAffinity(t, aff) => AffinityKeeps(m, t, aff);
    }
  }

  lemma NoOwner(m: Machine, t: int)
    requires Inv(m) && Thread(m, t) && m.isOwner[t] < 0
    ensures m.isOwner[t] == NONE
  {
  }

  lemma WriteKeeps(m: Machine, c: int, left: Regs)
    requires Inv(m) && Cpu(m, c) && m.cur[c] != NONE && m.owner[c] == m.cur[c]
    ensures Inv(m.(regs := m.regs[c := left]))
    ensures forall t :: Thread(m, t) && m.user[t] ==>
      Content(m.(regs := m.regs[c := left]), t) == if t == m.cur[c] then left else Content(m, t)
  {
  }

  lemma UseKeeps(m: Machine, c: int, left: Regs)
    requires Inv(m) && Can(m, Use(c, left))
    ensures Inv(Step(m, Use(c, left)))
    ensures forall t :: Thread(m, t) && m.user[t] ==>
      Content(Step(m, Use(c, left)), t) == if t == m.cur[c] then left else Content(m, t)
  {
    hide Trap, Content, Agree, Homes;
    InvAgree(m);
    if m.disabled[c] {
      TrapKeeps(m, c);
      WriteKeeps(Trap(m, c), c, left);
    } else {
      WriteKeeps(m, c, left);
    }
  }

  // ---- whole runs ----

  /** One use of the FPU: by whom, what was found, what was left. */
  datatype Entry = Entry(t: int, seen: Regs, left: Regs)

  /** The registers thread `t` last left. */
  ghost function LastLeft(h: seq<Entry>, t: int): Regs {
    if h == [] then ZERO
    else if h[|h| - 1].t == t then h[|h| - 1].left
    else LastLeft(h[..|h| - 1], t)
  }

  /** Before the first step: no owner, no thread running, FPU disabled, areas cleared. */
  ghost predicate Start(m: Machine) {
    && Shaped(m)
    && (forall c :: Cpu(m, c) ==> m.cur[c] == NONE && m.owner[c] == NONE && m.disabled[c])
    && (forall t :: Thread(m, t) ==> m.isOwner[t] == NONE && m.saved[t] == ZERO && m.place[t] == Waiting)
  }

  ghost function Boot(cpus: nat, user: seq<bool>): (m: Machine)
    ensures Start(m) && |m.cur| == cpus && m.user == user
  {
    var n := |user|;
    Machine(seq(cpus, _ => NONE), seq(cpus, _ => NONE), seq(cpus, _ => true), seq(cpus, _ => ZERO),
      user, seq(n, _ => NONE), seq(n, _ => ZERO), seq(n, _ => NO_AFF), seq(n, _ => Waiting))
  }

  /** `m'` is reached from `m` by the steps `es`, leaving the FPU history `h`. */
  ghost predicate Reaches(m: Machine, es: seq<Event>, m': Machine, h: seq<Entry>) {
    if es == [] then m' == m && h == []
    else
      var e := es[|es| - 1];
      exists p, g ::
        && Reaches(m, es[..|es| - 1], p, g)
        && Shaped(p) && Can(p, e) && m' == Step(p, e)
        && h == Record(p, g, e)
  }

  /** Every use found what the same thread last left. */
  ghost predicate Faithful(h: seq<Entry>) {
    forall i :: 0 <= i < |h| ==> h[i].seen == LastLeft(h[..i], h[i].t)
  }

  lemma LastLeftMore(h: seq<Entry>, x: Entry, t: int)
    ensures LastLeft(h + [x], t) == if x.t == t then x.left else LastLeft(h, t)
  {
    assert (h + [x])[..|h|] == h;
  }

  lemma FaithfulMore(h: seq<Entry>, x: Entry)
    requires Faithful(h) && x.seen == LastLeft(h, x.t)
    ensures Faithful(h + [x])
  {
    forall i | 0 <= i < |h| + 1 ensures (h + [x])[i].seen == LastLeft((h + [x])[..i], (h + [x])[i].t) {
      assert (h + [x])[..i] == h[..i];
      assert h[..|h|] == h;
    }
  }

  /** The machine holds for every user thread what it last left. */
  ghost predicate Matches(m: Machine, h: seq<Entry>) {
    Inv(m) && Faithful(h) && forall t :: Thread(m, t) && m.user[t] ==> Content(m, t) == LastLeft(h, t)
  }

  ghost function Record(m: Machine, h: seq<Entry>, e: Event): seq<Entry>
    requires Shaped(m) && Can(m, e)
  {
    if e.Use? then h + [Entry(m.cur[e.c], Seen(m, e.c), e.left)] else h
  }

  lemma RunStep(m: Machine, h: seq<Entry>, e: Event)
    requires Matches(m, h) && Can(m, e)
    ensures Matches(Step(m, e), Record(m, h, e))
  {
    hide Step, Seen, Content, Agree, Homes, Guarded, Faithful, Shaped;
    InvAgree(m);
    StepKeeps(m, e);
    if e.Use? {
      CanUse(m, e);
      SeesOwn(m, e.c);
      var x := Entry(m.cur[e.c], Seen(m, e.c), e.left);
      FaithfulMore(h, x);
      forall t ensures LastLeft(h + [x], t) == if x.t == t then x.left else LastLeft(h, t) { LastLeftMore(h, x, t); }
    }
  }

  lemma CanUse(m: Machine, e: Event)
    requires Inv(m) && Can(m, e) && e.Use?
    ensures Cpu(m, e.c) && m.cur[e.c] != NONE && Thread(m, m.cur[e.c]) && m.user[m.cur[e.c]]
  {
  }

  /** In every run, ownership is consistent and every thread sees the registers it last left. */
  lemma {:induction false} EveryRun(m: Machine, es: seq<Event>, m': Machine, h: seq<Entry>)
    requires Start(m) && Reaches(m, es, m', h)
    ensures Matches(m', h)
    decreases |es|
  {
    hide Step, Matches, Record, Inv, Agree, Shaped, Can;
    if es == [] {
      StartInv(m);
    } else {
      var e := es[|es| - 1];
      var p, g :| Reaches(m, es[..|es| - 1], p, g) && Shaped(p) && Can(p, e) && m' == Step(p, e)
        && h == Record(p, g, e);
      EveryRun(m, es[..|es| - 1], p, g);
      MatchesInv(p, g);
      RunStep(p, g, e);
    }
  }

  lemma MatchesInv(m: Machine, h: seq<Entry>)
    requires Matches(m, h)
    ensures Inv(m)
  {
  }

  lemma StartInv(m: Machine)
    requires Start(m)
    ensures Matches(m, [])
  {
  }
}
