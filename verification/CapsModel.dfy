/**
Capabilities and reference counts (`capability.c`, `cap_group.c`) over any number of groups.

A slot is named by its group and slot number. An object is named by its allocation, so names are
not reused. `refs` counts the references handed out by `obj_get` and `obj_ref` and not yet
returned, and `freed` records every call that frees an object.
*/
module CapsModel {
  import opened Lists

  type Obj = nat

  datatype Key = Key(group: int, id: int)

  /** An object: its type, `refcount`, copies list, and the references handed out. */
  datatype Info = Info(kind: int, count: int, copies: seq<Key>, refs: nat)

  datatype Caps = Caps(
    slots: map<Key, Obj>,    // installed slots
    objs: map<Obj, Info>,    // objects that have been given a capability
    young: map<Obj, int>,    // allocated objects before their first capability, with their type
    freed: multiset<Obj>)

  /** A count is the number of slots plus the references handed out, and is never zero. */
  ghost predicate Exact(i: Info) {
    i.count == |i.copies| + i.refs && i.count > 0 && NoDup(i.copies)
  }

  ghost predicate Counted(s: Caps) {
    forall o <- s.objs :: Exact(s.objs[o])
  }

  /** The slots of an object are exactly its copies list. */
  ghost predicate Linked(s: Caps) {
    && (forall k <- s.slots :: s.slots[k] in s.objs && k in s.objs[s.slots[k]].copies)
    && (forall o <- s.objs, k <- s.objs[o].copies :: k in s.slots && s.slots[k] == o)
  }

  /** What was freed was freed once and is gone. */
  ghost predicate Gone(s: Caps) {
    && s.young.Keys !! s.objs.Keys
    && forall o <- s.freed :: s.freed[o] == 1 && o !in s.objs && o !in s.young
  }

  ghost predicate Inv(s: Caps) {
    Linked(s) && Counted(s) && Gone(s)
  }

  // ---- lists ----

  /** `list_add` after element `at` */
  function InsertAfter(c: seq<Key>, at: Key, k: Key): seq<Key> {
    if c == [] then [] else if c[0] == at then [at, k] + c[1..] else [c[0]] + InsertAfter(c[1..], at, k)
  }

  lemma {:induction false} InsertAfterIs(c: seq<Key>, at: Key, k: Key)
    requires NoDup(c) && at in c && k !in c
    ensures NoDup(InsertAfter(c, at, k)) && forall x :: x in InsertAfter(c, at, k) <==> x in c || x == k
    ensures |InsertAfter(c, at, k)| == |c| + 1
  {
    hide NoDup;
    var r := c[1..];
    assert c == [c[0]] + r;
    NoDupTail(c);
    if c[0] == at {
      NoDupCons(k, r);
      NoDupCons(at, [k] + r);
      assert [at, k] + r == [at] + ([k] + r);
    } else {
      InsertAfterIs(r, at, k);
      NoDupCons(c[0], InsertAfter(r, at, k));
    }
  }

  /** The new element stands right after the one it was copied from. */
  lemma {:induction false} InsertAfterPlace(c: seq<Key>, at: Key, k: Key) returns (i: nat)
    requires at in c
    ensures i < |c| && c[i] == at && InsertAfter(c, at, k) == c[..i + 1] + [k] + c[i + 1..]
  {
    i := 0;
    if c[0] != at {
      var j := InsertAfterPlace(c[1..], at, k);
      i := j + 1;
      assert c == [c[0]] + c[1..];
    }
  }

  // ---- steps ----

  /** `__free_object` */
  function FreeObject(s: Caps, o: Obj): Caps {
    s.(objs := s.objs - {o}, freed := s.freed + multiset{o})
  }

  /** The new record of an object, which goes when nothing refers to it any more. */
  function Settle(s: Caps, o: Obj, i: Info): Caps {
    if i.count == 0 then FreeObject(s, o) else s.(objs := s.objs[o := i])
  }

  /** `cap_alloc` into a free slot */
  function Publish(s: Caps, k: Key, o: Obj): Caps
    requires o in s.young
  {
    s.(slots := s.slots[k := o], objs := s.objs[o := Info(s.young[o], 1, [k], 0)], young := s.young - {o})
  }

  /** `cap_copy` of slot `src` into the free slot `k` */
  function Copy(s: Caps, src: Key, k: Key): Caps
    requires src in s.slots && s.slots[src] in s.objs
  {
    var o := s.slots[src];
    var i := s.objs[o];
    s.(slots := s.slots[k := o], objs := s.objs[o := i.(copies := InsertAfter(i.copies, src, k), count := i.count + 1)])
  }

  /** `__cap_free` of a valid slot */
  function Unlink(s: Caps, k: Key): Caps
    requires k in s.slots && s.slots[k] in s.objs
  {
    var o := s.slots[k];
    var i := s.objs[o];
    Settle(s.(slots := s.slots - {k}), o, i.(copies := Without(i.copies, k), count := i.count - 1))
  }

  /** `obj_ref`, and `get_opaque` when it succeeds */
  function Ref(s: Caps, o: Obj): Caps
    requires o in s.objs
  {
    var i := s.objs[o];
    s.(objs := s.objs[o := i.(count := i.count + 1, refs := i.refs + 1)])
  }

  /** `obj_put` */
  function Put(s: Caps, o: Obj): Caps
    requires o in s.objs && s.objs[o].refs > 0
  {
    var i := s.objs[o];
    Settle(s, o, i.(count := i.count - 1, refs := i.refs - 1))
  }

  /** What `cap_free_all` amounts to: every slot of the object is gone, in every group, and the
  object with them unless references are still out. */
  ghost function Revoked(s: Caps, o: Obj): Caps
    requires o in s.objs
  {
    var i := s.objs[o];
    Settle(s.(slots := map k | k in s.slots && s.slots[k] != o :: s.slots[k]), o, i.(copies := [], count := i.refs))
  }

  datatype Op =
    | ObjAlloc(o: Obj, kind: int)
    | ObjFree(o: Obj)
    | CapAlloc(k: Key, o: Obj)
    | CapCopy(src: Key, k: Key)
    | CapFree(k: Key)
    | CapFreeAll(k: Key)
    | ObjGet(k: Key)
    | ObjRef(o: Obj)
    | ObjPut(o: Obj)

  /** What callers must respect: new names, free slots, and returning only what was handed out. */
  ghost predicate Allowed(s: Caps, op: Op) {
    match op
    case ObjAlloc(o, _) => o !in s.objs && o !in s.young && o !in s.freed
    case ObjFree(o) => o in s.young
    case CapAlloc(k, o) => o in s.young && k !in s.slots
    case CapCopy(src, k) => src in s.slots && k !in s.slots
    case CapFree(k) => k in s.slots
    case CapFreeAll(k) => k in s.slots
    case ObjGet(k) => k in s.slots
    case ObjRef(o) => o in s.objs
    case ObjPut(o) => o in s.objs && s.objs[o].refs > 0
  }

  /** The slot that the operation follows refers to an object that is still there. */
  ghost predicate Sound(s: Caps, op: Op)
    requires Allowed(s, op)
  {
    match op
    case CapCopy(src, _) => s.slots[src] in s.objs
    case CapFree(k) => s.slots[k] in s.objs
    case CapFreeAll(k) => s.slots[k] in s.objs
    case ObjGet(k) => s.slots[k] in s.objs
    case ObjAlloc(_, _) => true
    case ObjFree(_) => true
    case CapAlloc(_, _) => true
    case ObjRef(_) => true
    case ObjPut(_) => true
  }

  ghost function Apply(s: Caps, op: Op): Caps
    requires Allowed(s, op) && Sound(s, op)
  {
    match op
    case ObjAlloc(o, kind) => s.(young := s.young[o := kind])
    case ObjFree(o) => s.(young := s.young - {o}, freed := s.freed + multiset{o})
    case CapAlloc(k, o) => Publish(s, k, o)
    case CapCopy(src, k) => Copy(s, src, k)
    case CapFree(k) => Unlink(s, k)
    case CapFreeAll(k) => Revoked(s, s.slots[k])
    case ObjGet(k) => Ref(s, s.slots[k])
    case ObjRef(o) => Ref(s, o)
    case ObjPut(o) => Put(s, o)
  }

  // ---- the invariant is kept ----

  /** Replacing the slots and the record of one object, the others staying as they are. */
  ghost predicate Rewrites(s: Caps, o: Obj, slots: map<Key, Obj>, i: Info) {
    && (forall k <- slots :: if slots[k] == o then k in i.copies else k in s.slots && slots[k] == s.slots[k])
    && (forall k <- s.slots :: s.slots[k] != o ==> k in slots && slots[k] == s.slots[k])
    && (forall k <- i.copies :: k in slots && slots[k] == o)
    && i.count == |i.copies| + i.refs && NoDup(i.copies)
  }

  lemma RewriteLinked(s: Caps, o: Obj, slots: map<Key, Obj>, i: Info)
    requires Linked(s) && o in s.objs && Rewrites(s, o, slots, i)
    ensures Linked(s.(slots := slots, objs := s.objs[o := i]))
  {
    hide NoDup;
  }

  lemma RewriteUnlinked(s: Caps, o: Obj, slots: map<Key, Obj>, i: Info)
    requires Linked(s) && o in s.objs && Rewrites(s, o, slots, i) && i.copies == []
    ensures Linked(s.(slots := slots, objs := s.objs - {o}))
  {
    hide NoDup;
  }

  lemma SettleKeeps(s: Caps, o: Obj, slots: map<Key, Obj>, i: Info)
    requires Inv(s) && o in s.objs && Rewrites(s, o, slots, i)
    ensures Inv(Settle(s.(slots := slots), o, i))
    ensures o in Settle(s.(slots := slots), o, i).objs <==> i.count > 0
  {
    hide NoDup, Linked;
    var t := Settle(s.(slots := slots), o, i);
    if i.count == 0 {
      RewriteUnlinked(s, o, slots, i);
      assert t.slots == slots && t.objs == s.objs - {o};
      LinkedSame(s.(slots := slots, objs := s.objs - {o}), t);
    } else {
      RewriteLinked(s, o, slots, i);
    }
  }

  lemma LinkedSame(s: Caps, t: Caps)
    requires Linked(s) && t.slots == s.slots && t.objs == s.objs
    ensures Linked(t)
  {
  }

  lemma PublishKeeps(s: Caps, k: Key, o: Obj)
    requires Inv(s) && o in s.young && k !in s.slots
    ensures Inv(Publish(s, k, o))
  {
    assert NoDup([k]);
  }

  lemma ExactAt(s: Caps, o: Obj)
    requires Inv(s) && o in s.objs
    ensures Exact(s.objs[o])
  {
  }

  lemma CopyRewrites(s: Caps, src: Key, k: Key)
    requires Inv(s) && src in s.slots && k !in s.slots
    ensures s.slots[src] in s.objs
    ensures var o := s.slots[src]; var i := s.objs[o];
      Rewrites(s, o, s.slots[k := o], i.(copies := InsertAfter(i.copies, src, k), count := i.count + 1))
  {
    hide InsertAfter, NoDup, Gone, Counted, Linked;
    LinkedAt(s, src);
    var o := s.slots[src];
    ExactAt(s, o);
    InsertAfterIs(s.objs[o].copies, src, k);
  }

  /** What the link between slots and lists says about one object. */
  lemma LinkedAt(s: Caps, src: Key)
    requires Inv(s) && src in s.slots
    ensures s.slots[src] in s.objs && src in s.objs[s.slots[src]].copies
    ensures forall x <- s.objs[s.slots[src]].copies :: x in s.slots && s.slots[x] == s.slots[src]
    ensures forall x <- s.slots :: s.slots[x] == s.slots[src] ==> x in s.objs[s.slots[src]].copies
  {
    hide Gone, Counted;
  }

  lemma CopyKeeps(s: Caps, src: Key, k: Key)
    requires Inv(s) && src in s.slots && k !in s.slots
    ensures Inv(Copy(s, src, k))
  {
    hide InsertAfter, NoDup, Linked, Counted, Gone, Rewrites;
    CopyRewrites(s, src, k);
    var o := s.slots[src];
    var i := s.objs[o];
    ExactAt(s, o);
    SettleKeeps(s, o, s.slots[k := o], i.(copies := InsertAfter(i.copies, src, k), count := i.count + 1));
  }

  lemma {:induction false} InsertThenWithout(c: seq<Key>, at: Key, k: Key)
    requires at in c && k !in c
    ensures Without(InsertAfter(c, at, k), k) == c
  {
    if c[0] == at {
      assert InsertAfter(c, at, k) == [at] + ([k] + c[1..]);
      assert Without([k] + c[1..], k) == c[1..];
    } else {
      InsertThenWithout(c[1..], at, k);
    }
  }

  /** Freeing a copied capability undoes the copy. */
  lemma CopyThenFree(s: Caps, src: Key, k: Key)
    requires Inv(s) && src in s.slots && k !in s.slots
    ensures s.slots[src] in s.objs && k in Copy(s, src, k).slots && Unlink(Copy(s, src, k), k) == s
  {
    hide Gone, NoDup, InsertAfter, Without;
    var o := s.slots[src];
    var i := s.objs[o];
    ExactAt(s, o);
    InsertThenWithout(i.copies, src, k);
    var j := i.(copies := InsertAfter(i.copies, src, k), count := i.count + 1);
    assert s.objs[o := j][o := i] == s.objs;
    assert s.slots[k := o] - {k} == s.slots;
  }

  lemma UnlinkRewrites(s: Caps, k: Key)
    requires Inv(s) && k in s.slots
    ensures s.slots[k] in s.objs
    ensures var o := s.slots[k]; var i := s.objs[o];
      Rewrites(s, o, s.slots - {k}, i.(copies := Without(i.copies, k), count := i.count - 1))
  {
    hide Without, NoDup, Gone, Counted, Linked;
    LinkedAt(s, k);
    ExactAt(s, s.slots[k]);
    WithoutIs(s.objs[s.slots[k]].copies, k);
  }

  lemma UnlinkKeeps(s: Caps, k: Key)
    requires Inv(s) && k in s.slots
    ensures Inv(Unlink(s, k))
  {
    hide Without, Rewrites, NoDup;
    UnlinkRewrites(s, k);
    var o := s.slots[k];
    var i := s.objs[o];
    SettleKeeps(s, o, s.slots - {k}, i.(copies := Without(i.copies, k), count := i.count - 1));
  }

  lemma RefKeeps(s: Caps, o: Obj)
    requires Inv(s) && o in s.objs
    ensures Inv(Ref(s, o))
  {
  }

  lemma PutKeeps(s: Caps, o: Obj)
    requires Inv(s) && o in s.objs && s.objs[o].refs > 0
    ensures Inv(Put(s, o))
  {
    hide NoDup, Linked, Counted, Gone, Rewrites;
    var i := s.objs[o];
    PutRewrites(s, o);
    SettleKeeps(s, o, s.slots, i.(count := i.count - 1, refs := i.refs - 1));
  }

  /** A reference that is returned leaves no trace. */
  lemma RefThenPut(s: Caps, o: Obj)
    requires Inv(s) && o in s.objs
    ensures Put(Ref(s, o), o) == s
  {
    assert Exact(s.objs[o]);
    assert s.objs == s.objs[o := s.objs[o]];
  }

  lemma PutRewrites(s: Caps, o: Obj)
    requires Inv(s) && o in s.objs && s.objs[o].refs > 0
    ensures var i := s.objs[o]; Rewrites(s, o, s.slots, i.(count := i.count - 1, refs := i.refs - 1))
  {
    hide NoDup, Gone;
    ExactAt(s, o);
  }

  lemma RevokedKeeps(s: Caps, o: Obj)
    requires Inv(s) && o in s.objs
    ensures Inv(Revoked(s, o))
    ensures forall k <- Revoked(s, o).slots :: Revoked(s, o).slots[k] != o
    ensures o in Revoked(s, o).objs <==> s.objs[o].refs > 0
  {
    var i := s.objs[o];
    SettleKeeps(s, o, map k | k in s.slots && s.slots[k] != o :: s.slots[k], i.(copies := [], count := i.refs));
  }

  lemma ApplyKeeps(s: Caps, op: Op)
    requires Inv(s) && Allowed(s, op)
    ensures Inv(Apply(s, op))
  {
    hide Publish, Copy, Unlink, Revoked, Ref, Put;
    match op {
      case ObjAlloc(o, kind) =>
      case ObjFree(o) =>
      case CapAlloc(k, o) => PublishKeeps(s, k, o);
      case CapCopy(src, k) => CopyKeeps(s, src, k);
      case CapFree(k) => UnlinkKeeps(s, k);
      case CapFreeAll(k) => RevokedKeeps(s, s.slots[k]);
      case ObjGet(k) => RefKeeps(s, s.slots[k]);
      case ObjRef(o) => RefKeeps(s, o);
      case ObjPut(o) => PutKeeps(s, o);
    }
  }

  // ---- whole runs ----

  /** A run is somewhere, or it has followed a slot to an object that is gone. */
  datatype Outcome = At(s: Caps) | Wild

  ghost predicate Next(q: Outcome, op: Op, r: Outcome) {
    if q.Wild? then r == Wild
    else Allowed(q.s, op) && r == if Sound(q.s, op) then At(Apply(q.s, op)) else Wild
  }

  ghost predicate Reaches(ops: seq<Op>, r: Outcome) {
    if ops == [] then r == At(EMPTY)
    else exists q {:trigger Reaches(ops[..|ops| - 1], q)} :: Reaches(ops[..|ops| - 1], q) && Next(q, ops[|ops| - 1], r)
  }

  const EMPTY := Caps(map[], map[], map[], multiset{})

  /** In every run each count is exact, no slot refers to a freed object, and nothing is freed
  twice; so no operation ever follows a slot to an object that is gone. */
  lemma {:induction false} EveryRun(ops: seq<Op>, r: Outcome)
    requires Reaches(ops, r)
    ensures r.At? && Inv(r.s)
    ensures forall k <- r.s.slots :: r.s.slots[k] !in r.s.freed && r.s.slots[k] in r.s.objs
    ensures forall op :: Allowed(r.s, op) ==> Sound(r.s, op)
    decreases |ops|
  {
    if ops != [] {
      hide Apply, Linked, Counted, Gone;
      var q :| Reaches(ops[..|ops| - 1], q) && Next(q, ops[|ops| - 1], r);
      EveryRun(ops[..|ops| - 1], q);
      ApplyKeeps(q.s, ops[|ops| - 1]);
      SlotsLive(r.s);
    }
  }

  lemma SlotsLive(t: Caps)
    requires Inv(t)
    ensures forall k <- t.slots :: t.slots[k] !in t.freed && t.slots[k] in t.objs
  {
  }

  /** No reference is out to an object that goes. */
  lemma GoneRefs(s: Caps, op: Op, o: Obj)
    requires Inv(s) && Allowed(s, op) && Sound(s, op)
    ensures o in s.objs && o !in Apply(s, op).objs ==> s.objs[o].refs == (if op == ObjPut(o) then 1 else 0)
  {
    hide Gone;
    if op.CapFree? && s.slots[op.k] == o { WithoutIs(s.objs[o].copies, op.k); }
    if o in s.objs { assert Exact(s.objs[o]); }
  }

  /** An object goes in the step after which no slot and no reference handed out is left, and only then. */
  lemma FreedAtZero(s: Caps, op: Op, o: Obj)
    requires Inv(s) && Allowed(s, op) && o in s.objs
    ensures o in Apply(s, op).objs <==> Apply(s, op).freed[o] == s.freed[o]
    ensures o !in Apply(s, op).objs ==>
      && Apply(s, op).freed[o] == s.freed[o] + 1
      && (forall k <- Apply(s, op).slots :: Apply(s, op).slots[k] != o)
      && s.objs[o].refs == (if op == ObjPut(o) then 1 else 0)
    ensures o in Apply(s, op).objs ==> Apply(s, op).objs[o].copies != [] || Apply(s, op).objs[o].refs > 0
  {
    ApplyKeeps(s, op);
    var t := Apply(s, op);
    if o !in t.objs {
      SlotsLive(t);
      GoneRefs(s, op, o);
    } else {
      assert Exact(t.objs[o]);
    }
  }
}
