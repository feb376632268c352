/** The capability operations on mutable state. */
module Capability {
  import opened CapsModel
  import opened Lists

  const ECAPBILITY := 200

  class System {
    var slots: map<Key, Obj>
    var objs: map<Obj, Info>
    var young: map<Obj, int>
    ghost var freed: multiset<Obj>

    ghost function View(): Caps reads this { Caps(slots, objs, young, freed) }

    ghost predicate Valid() reads this { Inv(View()) }

    constructor ()
      ensures Valid() && View() == EMPTY
    {
      slots, objs, young, freed := map[], map[], map[], multiset{};
    }

    /** `obj_alloc` */
    method ObjAlloc(o: Obj, kind: int)
      requires Valid() && Allowed(View(), Op.ObjAlloc(o, kind))
      modifies this
      ensures Valid() && View() == Apply(old(View()), Op.ObjAlloc(o, kind))
    {
      ApplyKeeps(View(), Op.ObjAlloc(o, kind));
      young := young[o := kind];
    }

    /** `cap_alloc` into the slot number given by `alloc_slot_id` */
    method CapAlloc(k: Key, o: Obj)
      requires Valid() && Allowed(View(), Op.CapAlloc(k, o))
      modifies this
      ensures Valid() && View() == Publish(old(View()), k, o)
    {
      hide Linked, Counted, Gone;
      PublishKeeps(View(), k, o);
      slots := slots[k := o];
      objs := objs[o := Info(young[o], 1, [k], 0)];
      young := young - {o};
    }

    /** `__free_object`; its copies list is empty, so the check there cannot fail */
    method FreeTheObject(o: Obj)
      requires o in objs && objs[o].copies == []
      modifies this
      ensures View() == FreeObject(old(View()), o)
    {
      objs := objs - {o};
      freed := freed + multiset{o};
    }

    /** `__cap_free` */
    method CapFree(k: Key) returns (r: int)
      requires Valid()
      modifies this
      ensures Valid() && (r == 0 <==> k in old(slots)) && (r == 0 || r == -ECAPBILITY)
      ensures View() == if r == 0 then Unlink(old(View()), k) else old(View())
    {
      hide Linked, Counted, Gone;
      if k !in slots { return -ECAPBILITY; }
      ghost var s := View();
      UnlinkKeeps(s, k);
      UnlinkLast(s, k);
      var o := slots[k];
      slots := slots - {k};
      objs := objs[o := objs[o].(copies := Without(objs[o].copies, k))];
      var before := objs[o].count;
      objs := objs[o := objs[o].(count := before - 1)];
      if before == 1 { FreeTheObject(o); }
      assert View() == Unlink(s, k);
      return 0;
    }

    /** `cap_copy` into the slot number `k` given by `alloc_slot_id` */
    method CapCopy(src: Key, k: Key) returns (r: int)
      requires Valid() && k !in slots
      modifies this
      ensures Valid() && (r == 0 <==> src in old(slots)) && (r == 0 || r == -ECAPBILITY)
      ensures View() == if r == 0 then Copy(old(View()), src, k) else old(View())
    {
      hide Linked, Counted, Gone;
      if src !in slots { return -ECAPBILITY; }
      ghost var s := View();
      CopyKeeps(s, src, k);
      SlotLive(View(), src);
      var o := slots[src];
      objs := objs[o := objs[o].(count := objs[o].count + 1)];
      objs := objs[o := objs[o].(copies := InsertAfter(objs[o].copies, src, k))];
      slots := slots[k := o];
      assert View() == Copy(s, src, k);
      return 0;
    }

    /** `get_opaque`: the object, with one more reference, unless the slot is empty or the type
    is another */
    method GetOpaque(k: Key, typed: bool, kind: int) returns (found: bool, o: Obj)
      requires Valid()
      modifies this
      ensures Valid()
      ensures found <==>
        k in old(slots) && old(slots)[k] in old(objs) && (!typed || old(objs)[old(slots)[k]].kind == kind)
      ensures found ==> o == old(slots)[k]
      ensures View() == if found then Ref(old(View()), o) else old(View())
    {
      hide Linked, Counted, Gone;
      if k !in slots { return false, 0; }
      SlotLive(View(), k);
      o := slots[k];
      if typed && objs[o].kind != kind { return false, o; }
      RefKeeps(View(), o);
      objs := objs[o := objs[o].(count := objs[o].count + 1, refs := objs[o].refs + 1)];
      return true, o;
    }

    /** `obj_ref` */
    method ObjRef(o: Obj)
      requires Valid() && o in objs
      modifies this
      ensures Valid() && View() == Ref(old(View()), o)
    {
      hide Linked, Counted, Gone;
      RefKeeps(View(), o);
      objs := objs[o := objs[o].(count := objs[o].count + 1, refs := objs[o].refs + 1)];
    }

    /** `obj_put` */
    method ObjPut(o: Obj)
      requires Valid() && o in objs && objs[o].refs > 0
      modifies this
      ensures Valid() && View() == Put(old(View()), o)
    {
      hide Linked, Counted, Gone;
      ghost var s := View();
      PutKeeps(s, o);
      PutLast(s, o);
      var before := objs[o].count;
      objs := objs[o := objs[o].(count := before - 1, refs := objs[o].refs - 1)];
      if before == 1 { FreeTheObject(o); }
      assert View() == Put(s, o);
    }

    /** `cap_free_all`: afterwards no slot anywhere refers to the object. */
    method CapFreeAll(k: Key) returns (r: int)
      requires Valid()
      modifies this
      ensures Valid() && (r == 0 <==> k in old(slots)) && (r == 0 || r == -ECAPBILITY)
      ensures r == 0 ==> old(slots)[k] in old(objs) && View() == Revoked(old(View()), old(slots)[k])
      ensures r == 0 ==> forall x <- slots :: slots[x] != old(slots)[k]
      ensures r != 0 ==> View() == old(View())
    {
      hide Linked, Counted, Gone;
      var found, o := GetOpaque(k, false, 0);
      if !found {
        if k in slots { SlotLive(View(), k); }
        return -ECAPBILITY;
      }
      ghost var s := View();
      LoopStart(s, o);
      var list := objs[o].copies;
      var n := 0;
      while n < |list|
        invariant 0 <= n <= |list| && Valid() && Freeing(s, o, list, n, View())
      {
        LoopStep(s, o, list, n, View());
        var c := CapFree(list[n]);
        n := n + 1;
      }
      LoopEnd(old(View()), s, o, list, View());
      ObjPut(o);
      RevokedKeeps(old(View()), o);
      return 0;
    }

    /** The slot number given by `alloc_slot_id`: the least one free in the group. */
    method FreeSlot(g: int) returns (k: Key)
      ensures k !in slots && k.group == g && k.id >= 0 && forall i :: 0 <= i < k.id ==> Key(g, i) in slots
    {
      var id := 0;
      ghost var seen: set<Key> := {};
      while Key(g, id) in slots
        invariant 0 <= id == |seen| && seen <= slots.Keys
        invariant forall i :: 0 <= i < id ==> Key(g, i) in slots
        invariant forall x <- seen :: x.group == g && x.id < id
        decreases |slots| - id
      {
        SmallerSet(seen + {Key(g, id)}, slots.Keys);
        seen := seen + {Key(g, id)};
        id := id + 1;
      }
      return Key(g, id);
    }

    /** The copy loop of `ipc_send_cap` with its roll-back: all capabilities are copied into the
    target group, or nothing changes. `delivered`: the new slot numbers reach user space. */
    method SendCaps(src: seq<Key>, g: int, delivered: bool) returns (r: int, dst: seq<Key>)
      requires Valid()
      modifies this
      ensures Valid()
      ensures r == 0 ==> delivered && |src| < MAX_CAP_TRANSFER && Copied(old(View()), src, dst, View())
      ensures r == 0 ==> forall k <- dst :: k.group == g
      ensures r != 0 ==> View() == old(View())
      ensures delivered && |src| < MAX_CAP_TRANSFER && (forall k <- src :: k in old(slots)) ==> r == 0
      ensures r == 0 && (forall k <- src :: k.group != g) ==> forall k <- src :: k in old(slots)
    {
      hide Linked, Counted, Gone, Copy, Unlink, Inv, Copied, Chain, CopyStep;
      if |src| >= MAX_CAP_TRANSFER { return -EINVAL, []; }
      ghost var states;
      r, dst, states := CopyAll(src, g);
      if r == 0 && delivered {
        ChainCopied(states, src, dst, |dst|);
        assert src[..|dst|] == src && dst[..|dst|] == dst;
        return;
      }
      if r == 0 { r := -EINVAL; }
      RollBack(dst, src, states);
    }

    /** The copying loop: it stops at the first capability that is not there. */
    method CopyAll(src: seq<Key>, g: int) returns (r: int, dst: seq<Key>, ghost states: seq<Caps>)
      requires Valid()
      modifies this
      ensures Valid() && Chain(states, src, dst) && states[0] == old(View()) && states[|dst|] == View()
      ensures forall k <- dst :: k.group == g
      ensures r == 0 ==> |dst| == |src| && forall k <- src :: k in old(slots) || k.group == g
      ensures r != 0 ==> exists k :: k in src && k !in old(slots)
    {
      hide Linked, Counted, Gone, Copy, Unlink, Inv;
      dst, r, states := [], 0, [View()];
      var i := 0;
      while i < |src|
        invariant 0 <= i == |dst| <= |src| && r == 0 && Valid() && forall k <- dst :: k.group == g
        invariant Chain(states, src, dst) && states[0] == old(View()) && states[i] == View()
        invariant forall x <- old(slots) :: x in slots
        invariant forall x <- slots :: x in old(slots) || x.group == g
        invariant forall j :: 0 <= j < i ==> src[j] in old(slots) || src[j].group == g
      {
        var k := FreeSlot(g);
        ghost var s := View();
        r := CapCopy(src[i], k);
        if r != 0 { return; }
        SlotLive(s, src[i]);
        CopySlots(s, src[i], k);
        dst, states, i := dst + [k], states + [View()], i + 1;
      }
    }

    /** The `out_free_cap` loop: the copies go again, the last one first. */
    method RollBack(dst: seq<Key>, ghost src: seq<Key>, ghost states: seq<Caps>)
      requires Valid() && Chain(states, src, dst) && states[|dst|] == View()
      modifies this
      ensures Valid() && View() == states[0]
    {
      hide Linked, Counted, Gone, Copy, Unlink, Inv;
      var i := |dst|;
      while i > 0
        invariant 0 <= i <= |dst| && states[i] == View() && Valid()
      {
        i := i - 1;
        assert CopyStep(states[i], src[i], dst[i], states[i + 1]);
        CopyThenFree(states[i], src[i], dst[i]);
        var f := CapFree(dst[i]);
      }
    }
  }

  const MAX_CAP_TRANSFER := 16
  const EINVAL := 22

  /** One capability is copied into a free slot. */
  ghost predicate CopyStep(s: Caps, src: Key, k: Key, t: Caps) {
    Inv(s) && src in s.slots && s.slots[src] in s.objs && k !in s.slots && t == Copy(s, src, k)
  }

  ghost predicate Chain(states: seq<Caps>, src: seq<Key>, dst: seq<Key>) {
    && |states| == |dst| + 1 && |dst| <= |src|
    && forall j :: 0 <= j < |dst| ==> CopyStep(states[j], src[j], dst[j], states[j + 1])
  }

  /** The capabilities are copied one after the other. */
  ghost predicate Copied(s: Caps, src: seq<Key>, dst: seq<Key>, t: Caps) {
    && |src| == |dst|
    && if src == [] then t == s
       else
         var n := |src| - 1;
         exists p :: Copied(s, src[..n], dst[..n], p) && CopyStep(p, src[n], dst[n], t)
  }

  lemma CopySlots(s: Caps, src: Key, k: Key)
    requires src in s.slots && s.slots[src] in s.objs
    ensures Copy(s, src, k).slots == s.slots[k := s.slots[src]]
  {
  }

  lemma {:induction false} ChainCopied(states: seq<Caps>, src: seq<Key>, dst: seq<Key>, n: nat)
    requires Chain(states, src, dst) && n <= |dst|
    ensures Copied(states[0], src[..n], dst[..n], states[n])
  {
    hide CopyStep;
    if n > 0 {
      ChainCopied(states, src, dst, n - 1);
      assert src[..n][..n - 1] == src[..n - 1] && dst[..n][..n - 1] == dst[..n - 1];
    }
  }

  lemma SmallerSet(a: set<Key>, b: set<Key>)
    requires a <= b
    ensures |a| <= |b|
  {
    assert b == a + (b - a) && |b| == |a| + |b - a|;
  }

  lemma SlotLive(s: Caps, k: Key)
    requires Inv(s) && k in s.slots
    ensures s.slots[k] in s.objs && k in s.objs[s.slots[k]].copies
  {
  }

  /** When the last slot goes and no reference is out, the list is empty. */
  lemma UnlinkLast(s: Caps, k: Key)
    requires Inv(s) && k in s.slots
    ensures s.slots[k] in s.objs
    ensures s.objs[s.slots[k]].count == 1 ==> Without(s.objs[s.slots[k]].copies, k) == []
  {
    WithoutIs(s.objs[s.slots[k]].copies, k);
    SlotLive(s, k);
    ExactAt(s, s.slots[k]);
  }

  lemma PutLast(s: Caps, o: Obj)
    requires Inv(s) && o in s.objs && s.objs[o].refs > 0
    ensures s.objs[o].count == 1 ==> s.objs[o].copies == []
  {
    ExactAt(s, o);
  }

  /** Part of the way through the loop of `cap_free_all`: the first `n` slots of the list are
  gone. */
  ghost predicate Freeing(s: Caps, o: Obj, list: seq<Key>, n: nat, t: Caps) {
    && n <= |list| && o in s.objs && o in t.objs && t.young == s.young && t.freed == s.freed
    && t.objs == s.objs[o := t.objs[o]]
    && t.objs[o].kind == s.objs[o].kind && t.objs[o].refs == s.objs[o].refs > 0
    && t.objs[o].copies == list[n..]
    && (forall k <- t.slots :: k in s.slots && t.slots[k] == s.slots[k])
    && (forall k <- s.slots :: s.slots[k] != o ==> k in t.slots)
  }

  lemma LoopStart(s: Caps, o: Obj)
    requires Inv(s) && o in s.objs && s.objs[o].refs > 0
    ensures Freeing(s, o, s.objs[o].copies, 0, s)
  {
    assert s.objs[o].copies[0..] == s.objs[o].copies;
    assert s.objs == s.objs[o := s.objs[o]];
  }

  lemma LoopStep(s: Caps, o: Obj, list: seq<Key>, n: nat, t: Caps)
    requires Inv(t) && Freeing(s, o, list, n, t) && n < |list|
    ensures list[n] in t.slots && t.slots[list[n]] == o && Freeing(s, o, list, n + 1, Unlink(t, list[n]))
  {
    hide Counted, Gone;
    var k := list[n];
    assert t.objs[o].copies[0] == k && k in t.objs[o].copies;
    ExactAt(t, o);
    assert Without(t.objs[o].copies, k) == list[n + 1..];
  }

  lemma SlotsEnd(s: Caps, o: Obj, list: seq<Key>, t: Caps)
    requires Inv(t) && Freeing(s, o, list, |list|, t)
    ensures t.slots == map k | k in s.slots && s.slots[k] != o :: s.slots[k]
  {
    hide Counted, Gone;
    forall k ensures k in t.slots <==> k in s.slots && s.slots[k] != o {
      if k in t.slots { SlotLive(t, k); }
    }
  }

  lemma LoopEnd(r: Caps, s: Caps, o: Obj, list: seq<Key>, t: Caps)
    requires Inv(t) && o in r.objs && s == Ref(r, o) && Freeing(s, o, list, |list|, t)
    ensures Put(t, o) == Revoked(r, o)
  {
    hide Linked, Counted, Gone;
    SlotsEnd(s, o, list, t);
    ExactAt(t, o);
    var i := r.objs[o];
    assert t.objs[o] == i.(copies := [], count := i.refs + 1, refs := i.refs + 1);
    RecordsEnd(r.objs, o, i.(count := i.count + 1, refs := i.refs + 1), t.objs[o], i.(copies := [], count := i.refs));
  }

  lemma RecordsEnd(m: map<Obj, Info>, o: Obj, a: Info, b: Info, c: Info)
    ensures m[o := a][o := b] - {o} == m - {o}
    ensures m[o := a][o := b][o := c] == m[o := c]
  {
  }
}
