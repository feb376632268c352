/** The routines of `fpu.c` and the scheduler core that move FPU ownership, on mutable state. */
module Fpu {
  import opened FpuModel
  import opened FpuPlaces

  class Cpus {
    var cur: seq<int>
    var owner: seq<int>
    var disabled: seq<bool>
    var regs: seq<Regs>
    const user: seq<bool>
    var isOwner: seq<int>
    var saved: seq<Regs>
    var affinity: seq<int>
    var place: seq<Place>

    ghost function View(): Machine reads this {
      Machine(cur, owner, disabled, regs, user, isOwner, saved, affinity, place)
    }

    ghost predicate Valid() reads this { Inv(View()) }

    /** `disable_fpu_usage` */
    method DisableFpuUsage(c: int)
      requires Shaped(View()) && Cpu(View(), c)
      modifies `disabled
      ensures View() == Disable(old(View()), c)
    {
      if !disabled[c] { disabled := disabled[c := true]; }
    }

    /** `enable_fpu_usage` */
    method EnableFpuUsage(c: int)
      requires Shaped(View()) && Cpu(View(), c)
      modifies `disabled
      ensures View() == Enable(old(View()), c)
    {
      disabled := disabled[c := false];
    }

    /** `save_fpu_state` */
    method SaveFpuState(c: int, t: int)
      requires Sized(View()) && Cpu(View(), c) && Thread(View(), t)
      modifies `saved
      ensures View() == Save(old(View()), c, t)
    {
      if user[t] { saved := saved[t := regs[c]]; }
    }

    /** `restore_fpu_state` */
    method RestoreFpuState(c: int, t: int)
      requires Sized(View()) && Cpu(View(), c) && Thread(View(), t)
      modifies `regs
      ensures View() == Restore(old(View()), c, t)
    {
      if user[t] { regs := regs[c := saved[t]]; }
    }

    /** `change_fpu_owner`: afterwards the running thread owns the FPU, and no thread has lost its
    registers. */
    method ChangeFpuOwner(c: int)
      requires Valid() && Cpu(View(), c) && cur[c] != NONE && user[cur[c]]
      modifies this
      ensures View() == Trap(old(View()), c)
      ensures Valid() && owner[c] == cur[c] && !disabled[c] && SameContents(old(View()), View())
    {
      hide Inv, Shaped, SameContents, Trap;
      TrapKeeps(View(), c);
      TrapFields(View(), c);
      InvAgree(View());
      EnableFpuUsage(c);
      var t := owner[c];
      if t == cur[c] { return; }
      if t != NONE {
        SaveFpuState(c, t);
        isOwner := isOwner[t := NONE];
      }
      owner := owner[c := cur[c]];
      RestoreFpuState(c, cur[c]);
      isOwner := isOwner[cur[c] := c];
    }

    /** `save_and_release_fpu` */
    method SaveAndReleaseFpu(c: int, t: int)
      requires Valid() && Cpu(View(), c) && Thread(View(), t)
      modifies this
      ensures View() == if old(owner[c]) == t then Release(old(View()), c) else old(View())
      ensures Valid() && SameContents(old(View()), View()) && owner[c] != t
    {
      hide Homes, Guarded, Content, SameContents;
      ReleaseKeeps(View(), c);
      ContentsSelf(View());
      if owner[c] == t {
        SaveFpuState(c, t);
        isOwner := isOwner[t := NONE];
        owner := owner[c := NONE];
        DisableFpuUsage(c);
      }
    }

    /** `save_and_release_fpu_owner` */
    method SaveAndReleaseFpuOwner(c: int)
      requires Valid() && Cpu(View(), c)
      modifies this
      ensures View() == Release(old(View()), c)
      ensures Valid() && owner[c] == NONE && SameContents(old(View()), View())
    {
      hide Homes, Guarded;
      ReleaseKeeps(View(), c);
      if owner[c] != NONE {
        SaveFpuState(c, owner[c]);
        isOwner := isOwner[owner[c] := NONE];
        owner := owner[c := NONE];
        DisableFpuUsage(c);
      }
    }

    /** `get_cpubind`: the CPU the thread may go to. */
    method GetCpubind(c: int, t: int) returns (bind: int)
      requires Valid() && Cpu(View(), c) && Thread(View(), t)
      modifies this
      ensures View() == Bind(old(View()), c, t).0 && bind == Bind(old(View()), c, t).1
      ensures (if bind == NO_AFF then c else bind) == Home(old(View()), c, t)
      ensures bind == NO_AFF <==> old(isOwner)[t] == NONE && old(affinity)[t] == NO_AFF
      ensures isOwner == Yielded(old(View()), c, t) && affinity == old(affinity)
      ensures place == old(place) && cur == old(cur)
      ensures Valid() && SameContents(old(View()), View())
    {
      hide Homes, Guarded, Home, Yielded;
      BindKeeps(View(), c, t);
      BindMeans(View(), c, t);
      if isOwner[t] < 0 {
        return affinity[t];
      } else if isOwner[t] == c {
        if affinity[t] == c || affinity[t] == NO_AFF {
          return c;
        } else {
          SaveAndReleaseFpu(c, t);
          return affinity[t];
        }
      } else {
        return isOwner[t];
      }
    }

    /** `pbrr_sched_enqueue` for a waiting thread, as far as the choice of the ready queue */
    method SchedEnqueue(c: int, t: int)
      requires Valid() && Cpu(View(), c) && Thread(View(), t) && place[t] == Waiting
      modifies this
      ensures View() == Enqueued(old(View()), c, t)
      ensures place == old(place)[t := Queued(Home(old(View()), c, t))] && cur == old(cur)
      ensures isOwner == Yielded(old(View()), c, t) && affinity == old(affinity)
      ensures Valid() && SameContents(old(View()), View())
    {
      hide Homes, Guarded, Bind, Content, Agree, Home, Yielded;
      InvAgree(View());
      EnqueuedKeeps(View(), c, t);
      var bind := GetCpubind(c, t);
      var cpu := if bind == NO_AFF then c else bind;
      place := place[t := Queued(cpu)];
    }

    /** `switch_to_thread` followed by `switch_context`, to another thread than the current one */
    method SwitchThread(c: int, t: int)
      requires Shaped(View()) && Cpu(View(), c) && Thread(View(), t)
      modifies this
      ensures View() == Switch(old(View()), c, t)
    {
      place := place[t := Running(c)];
      cur := cur[c := t];
      if user[t] { DisableFpuUsage(c); }
    }

    /** `pbrr_sched` puts the old thread back into a ready queue if it can still run. */
    method LeaveThread(c: int, keep: bool)
      requires Valid() && Cpu(View(), c)
      modifies this
      ensures View() == Leave(old(View()), c, keep).(cur := old(cur))
      ensures Shaped(old(View()))
      ensures cur[c] != NONE ==>
        place == old(place)[cur[c] := if keep then Queued(Home(old(View()), c, cur[c])) else Waiting]
    {
      hide Homes, Guarded, Bind, Content, Agree, Home, Yielded;
      InvAgree(View());
      var prev := cur[c];
      if prev == NONE { return; }
      BindKeeps(View(), c, prev);
      if keep {
        var bind := GetCpubind(c, prev);
        place := place[prev := Queued(if bind == NO_AFF then c else bind)];
      } else {
        place := place[prev := Waiting];
      }
    }

    /** The switch at the end of `pbrr_sched` */
    method Resched(c: int, t: int, keep: bool)
      requires Valid() && Can(View(), Event.Resched(c, t, keep))
      modifies this
      ensures View() == Step(old(View()), Event.Resched(c, t, keep))
      ensures place == Places(old(View()), Event.Resched(c, t, keep)) && cur == old(cur)[c := t]
      ensures Valid() && SameContents(old(View()), View())
    {
      hide Agree, Leave, Content, Inv, Step, Switch, Shaped, SameContents, Places;
      ghost var m := View();
      StepMeans(m, Event.Resched(c, t, keep));
      InvAgree(m);
      CanResched(m, c, t, keep);
      StepKeeps(m, Event.Resched(c, t, keep));
      LeaveThread(c, keep);
      LeaveCurrent(m, c, keep);
      SwitchIgnoresCurrent(m, Leave(m, c, keep), c, t);
      SwitchThread(c, t);
    }

    /** `sched` on CPU `c`: its policy picks `next`, the current thread or one queued here; every
    thread but these two stays where it is. */
    method Sched(c: int, next: int, keep: bool)
      requires Valid() && Cpu(View(), c)
      requires next == cur[c] || (Thread(View(), next) && place[next] == Queued(c))
      modifies this
      ensures |cur| == old(|cur|) && |place| == old(|place|) && cur[c] == next
      ensures next == old(cur[c]) ==> View() == old(View())
      ensures next != old(cur[c]) ==> place[next] == Running(c) && Left(old(View()), c, keep, place)
      ensures forall u :: 0 <= u < |place| && u != next && u != old(cur[c]) ==> place[u] == old(place[u])
      ensures Valid() && SameContents(old(View()), View())
    {
      hide Inv, Content, Agree, Shaped, SameContents, Step, Places, Left;
      ghost var m := View();
      InvAgree(m);
      if next == cur[c] {
        ContentsSelf(m);
        return;
      }
      QueuedCanRun(m, c, next, keep);
      OthersStay(m, c, next, keep);
      Resched(c, next, keep);
    }

    /** `sched_to_thread`: a direct switch, unless the target owns the FPU of another CPU; then it is
    queued there and `sched` goes on with `next`. */
    method SchedToThread(c: int, t: int, keep: bool, next: int) returns (direct: bool)
      requires Valid() && Cpu(View(), c) && Thread(View(), t) && place[t] == Waiting
      requires next == cur[c] || (Thread(View(), next) && place[next] == Queued(c))
      modifies this
      ensures direct <==> old(isOwner[t]) == NONE || old(isOwner[t]) == c
      ensures |cur| == old(|cur|) && |place| == old(|place|)
      ensures direct ==> cur[c] == t && place[t] == Running(c)
      ensures !direct ==> place[t] == Queued(old(isOwner[t])) && cur[c] == next
      ensures cur[c] != old(cur[c]) ==> Left(old(View()), c, keep, place)
      ensures Valid() && SameContents(old(View()), View())
    {
      hide Inv, Content, Agree, Shaped, SameContents, Step, Enqueued, Can, Places, Home, Yielded, Left;
      ghost var m := View();
      InvAgree(m);
      if isOwner[t] >= 0 && isOwner[t] != c {
        OwnerQueued(m, c, t);
        SchedEnqueue(c, t);
        ghost var n := View();
        NotYielding(m, c, t);
        Sched(c, next, keep);
        if next != m.cur[c] { SameLeft(m, n, c, keep, place); }
        SameContentsTrans(m, n, View());
        return false;
      } else {
        NoneOrHere(m, c, t);
        CanReserve(m, c, t);
        StepKeeps(m, Reserve(c, t));
        ReserveStep(m, c, t);
        place := place[t := Bound(c)];
        ghost var n := View();
        OthersStay(n, c, t, keep);
        Resched(c, t, keep);
        SameLeft(m, n, c, keep, place);
        SameContentsTrans(m, n, View());
        return true;
      }
    }

    /** A user thread uses the FPU, trapping first when it is disabled: it finds its own registers. */
    method UseFpu(c: int, left: Regs) returns (seen: Regs)
      requires Valid() && Can(View(), Use(c, left))
      modifies this
      ensures seen == Content(old(View()), old(cur[c]))
      ensures View() == Step(old(View()), Use(c, left)) && Valid()
    {
      hide Homes, Guarded, Trap, Content;
      StepKeeps(View(), Use(c, left));
      SeesOwn(View(), c);
      if disabled[c] { ChangeFpuOwner(c); }
      seen := regs[c];
      regs := regs[c := left];
    }
  }

  lemma CanResched(m: Machine, c: int, t: int, keep: bool)
    requires Shaped(m) && Can(m, Event.Resched(c, t, keep))
    ensures Cpu(m, c) && Thread(m, t) && Step(m, Event.Resched(c, t, keep)) == Switch(Leave(m, c, keep), c, t)
  {
  }

  lemma LeaveCurrent(m: Machine, c: int, keep: bool)
    requires Inv(m) && Cpu(m, c)
    ensures Leave(m, c, keep).cur == m.cur[c := NONE]
  {
  }

  lemma SwitchIgnoresCurrent(m: Machine, n: Machine, c: int, t: int)
    requires Shaped(m) && Shaped(n) && Cpu(n, c) && Thread(n, t) && |m.cur| == |n.cur| && |m.place| == |n.place|
    requires n.cur == m.cur[c := NONE]
    ensures Shaped(n.(cur := m.cur)) && Switch(n.(cur := m.cur), c, t) == Switch(n, c, t)
  {
    assert m.cur[c := t] == n.cur[c := t];
  }

  lemma QueuedCanRun(m: Machine, c: int, t: int, keep: bool)
    requires Inv(m) && Cpu(m, c) && Thread(m, t) && m.place[t] == Queued(c) && t != m.cur[c]
    ensures Can(m, Event.Resched(c, t, keep))
  {
  }

  lemma CanReserve(m: Machine, c: int, t: int)
    requires Inv(m) && Cpu(m, c) && Thread(m, t) && m.place[t] == Waiting
    requires m.isOwner[t] == NONE || m.isOwner[t] == c
    ensures Can(m, Reserve(c, t))
  {
  }

  /** An owner of another CPU is queued there. */
  lemma OwnerQueued(m: Machine, c: int, t: int)
    requires Inv(m) && Cpu(m, c) && Thread(m, t) && m.place[t] == Waiting && m.isOwner[t] >= 0 && m.isOwner[t] != c
    ensures t != m.cur[c]
    ensures var r := Enqueued(m, c, t);
      r.cur == m.cur && Thread(r, t) && r.place == m.place[t := Queued(m.isOwner[t])] && |r.cur| == |m.cur|
  {
    hide Guarded;
  }

  lemma NotYielding(m: Machine, c: int, t: int)
    requires Shaped(m) && Thread(m, t) && m.isOwner[t] >= 0 && m.isOwner[t] != c
    ensures Yielded(m, c, t) == m.isOwner
  {
  }

  lemma ReserveStep(m: Machine, c: int, t: int)
    requires Inv(m) && Can(m, Reserve(c, t))
    ensures Step(m, Reserve(c, t)) == m.(place := m.place[t := Bound(c)])
    ensures forall keep :: Can(Step(m, Reserve(c, t)), Event.Resched(c, t, keep))
  {
  }

  lemma NoneOrHere(m: Machine, c: int, t: int)
    requires Inv(m) && Thread(m, t) && (m.isOwner[t] < 0 || m.isOwner[t] == c)
    ensures m.isOwner[t] == NONE || m.isOwner[t] == c
  {
  }
}
