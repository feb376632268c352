/**
The whole state of the capability system, read off the operations of a run: which slot refers to what,
how many references are out, which objects are there and which were freed.
*/
module CapsHistory {
  import opened CapsModel
  import opened Lists
  import opened Wrappers

  ghost function Prior(ops: seq<Op>): seq<Op>
    requires ops != []
  {
    ops[..|ops| - 1]
  }

  ghost function Last(ops: seq<Op>): Op
    requires ops != []
  {
    ops[|ops| - 1]
  }

  /** The object that slot `k` refers to after the operations `ops`. */
  ghost function SlotAfter(ops: seq<Op>, k: Key): Option<Obj> {
    if ops == [] then None
    else
      var before := SlotAfter(Prior(ops), k);
      match Last(ops)
      case CapAlloc(j, o) => if j == k then Some(o) else before
      case CapCopy(src, j) => if j == k then SlotAfter(Prior(ops), src) else before
      case CapFree(j) => if j == k then None else before
      case CapFreeAll(j) => if before == SlotAfter(Prior(ops), j) then None else before
      case _ => before
  }

  /** Does the operation hand out a reference to `o`? */
  ghost predicate HandsOut(ops: seq<Op>, op: Op, o: Obj) {
    op == ObjRef(o) || (op.ObjGet? && SlotAfter(ops, op.k) == Some(o))
  }

  /** The references to `o` handed out and not returned. */
  ghost function OutAfter(ops: seq<Op>, o: Obj): int {
    if ops == [] then 0
    else
      OutAfter(Prior(ops), o)
      + (if HandsOut(Prior(ops), Last(ops), o) then 1 else 0)
      - (if Last(ops) == ObjPut(o) then 1 else 0)
  }

  /** The type that `o` was allocated with. */
  ghost function KindAfter(ops: seq<Op>, o: Obj): Option<int> {
    if ops == [] then None
    else if Last(ops).ObjAlloc? && Last(ops).o == o then Some(Last(ops).kind)
    else KindAfter(Prior(ops), o)
  }

  /** `o` was allocated and has not had a capability, nor was it given up before. */
  ghost predicate YoungAfter(ops: seq<Op>, o: Obj) {
    ops != [] &&
    match Last(ops)
    case ObjAlloc(x, _) => x == o || YoungAfter(Prior(ops), o)
    case ObjFree(x) => x != o && YoungAfter(Prior(ops), o)
    case CapAlloc(_, x) => x != o && YoungAfter(Prior(ops), o)
    case _ => YoungAfter(Prior(ops), o)
  }

  ghost predicate SlotsAgree(ops: seq<Op>, s: Caps) {
    forall k :: SlotAfter(ops, k) == if k in s.slots then Some(s.slots[k]) else None
  }

  ghost predicate RefsAgree(ops: seq<Op>, s: Caps, o: Obj) {
    OutAfter(ops, o) == if o in s.objs then s.objs[o].refs else 0
  }

  ghost predicate KindAgrees(ops: seq<Op>, s: Caps, o: Obj) {
    KindAfter(ops, o) == KindIn(s, o) || (KindIn(s, o) == None && o in s.freed)
  }

  ghost predicate AgeAgrees(ops: seq<Op>, s: Caps, o: Obj) {
    && (o in s.young <==> YoungAfter(ops, o))
    && (o in s.freed ==> KindAfter(ops, o) != None)
  }

  ghost predicate Agrees(ops: seq<Op>, s: Caps) {
    SlotsAgree(ops, s) && forall o :: RefsAgree(ops, s, o) && KindAgrees(ops, s, o) && AgeAgrees(ops, s, o)
  }

  // ---- each operation keeps the agreement ----

  ghost predicate Follows(ops: seq<Op>, s: Caps) {
    ops != [] && Inv(s) && Allowed(s, Last(ops)) && Sound(s, Last(ops))
  }

  lemma StepSlots(ops: seq<Op>, s: Caps)
    requires Follows(ops, s) && SlotsAgree(Prior(ops), s)
    ensures SlotsAgree(ops, Apply(s, Last(ops)))
  {
    hide Counted, Gone, Linked;
  }

  lemma StepRefs(ops: seq<Op>, s: Caps, o: Obj)
    requires Follows(ops, s) && SlotsAgree(Prior(ops), s) && RefsAgree(Prior(ops), s, o)
    ensures RefsAgree(ops, Apply(s, Last(ops)), o)
  {
    hide Linked;
    GoneRefs(s, Last(ops), o);
  }

  lemma StepKind(ops: seq<Op>, s: Caps, o: Obj)
    requires Follows(ops, s) && KindAgrees(Prior(ops), s, o)
    ensures KindAgrees(ops, Apply(s, Last(ops)), o)
  {
    hide Linked, Counted, Without, InsertAfter, Apply, Allowed, Sound;
    var op := Last(ops);
    if op.ObjAlloc? || op.ObjFree? || op.CapAlloc? { BirthKind(s, op, o); } else { LaterKind(s, op, o); }
  }

  ghost function KindIn(s: Caps, o: Obj): Option<int> {
    if o in s.objs then Some(s.objs[o].kind) else if o in s.young then Some(s.young[o]) else None
  }

  lemma BirthKind(s: Caps, op: Op, o: Obj)
    requires Inv(s) && Allowed(s, op) && Sound(s, op) && (op.ObjAlloc? || op.ObjFree? || op.CapAlloc?)
    ensures op.ObjAlloc? && op.o == o ==> KindIn(Apply(s, op), o) == Some(op.kind)
    ensures !(op.ObjAlloc? && op.o == o) ==>
      KindIn(Apply(s, op), o) == KindIn(s, o) || (o in Apply(s, op).freed && KindIn(Apply(s, op), o) == None)
    ensures o in s.freed ==> o in Apply(s, op).freed && KindIn(Apply(s, op), o) == None
  {
    hide Linked, Counted;
  }

  lemma LaterKind(s: Caps, op: Op, o: Obj)
    requires Inv(s) && Allowed(s, op) && Sound(s, op) && !(op.ObjAlloc? || op.ObjFree? || op.CapAlloc?)
    ensures KindIn(Apply(s, op), o) == KindIn(s, o) || (o in Apply(s, op).freed && KindIn(Apply(s, op), o) == None)
    ensures o in s.freed ==> o in Apply(s, op).freed && KindIn(Apply(s, op), o) == None
  {
    hide Linked, Counted, Without, InsertAfter;
  }

  lemma StepAge(ops: seq<Op>, s: Caps, o: Obj)
    requires Follows(ops, s) && KindAgrees(Prior(ops), s, o) && AgeAgrees(Prior(ops), s, o)
    ensures AgeAgrees(ops, Apply(s, Last(ops)), o)
  {
    hide Linked, Counted;
  }

  lemma StepAgrees(ops: seq<Op>, s: Caps)
    requires Follows(ops, s) && Agrees(Prior(ops), s)
    ensures Agrees(ops, Apply(s, Last(ops)))
  {
    hide Apply, SlotsAgree, RefsAgree, KindAgrees, AgeAgrees, Inv;
    StepSlots(ops, s);
    forall o
      ensures var t := Apply(s, Last(ops)); RefsAgree(ops, t, o) && KindAgrees(ops, t, o) && AgeAgrees(ops, t, o)
    {
      assert RefsAgree(Prior(ops), s, o);
      StepRefs(ops, s, o);
      StepKind(ops, s, o);
      StepAge(ops, s, o);
    }
  }

  // ---- whole runs ----

  /** Something refers to `o`: a slot, or a reference that was handed out. */
  ghost predicate Referred(ops: seq<Op>, o: Obj) {
    OutAfter(ops, o) > 0 || exists k :: SlotAfter(ops, k) == Some(o)
  }

  lemma {:induction false} RunAgrees(ops: seq<Op>, r: Outcome)
    requires Reaches(ops, r)
    ensures r.At? && Inv(r.s) && Agrees(ops, r.s)
    decreases |ops|
  {
    EveryRun(ops, r);
    if ops != [] {
      hide Inv, Apply, Agrees;
      var q :| Reaches(ops[..|ops| - 1], q) && Next(q, ops[|ops| - 1], r);
      RunAgrees(Prior(ops), q);
      StepAgrees(ops, q.s);
    }
  }

  /** What the operations say about object `o`: it is there iff something refers to it, with the type it was
  allocated with, its slots and its count; it is young until its first capability; and it was freed, once,
  iff it was allocated and is neither. */
  ghost predicate Told(ops: seq<Op>, s: Caps, o: Obj) {
    && (o in s.objs <==> Referred(ops, o))
    && (o in s.objs ==>
       var i := s.objs[o];
       && Some(i.kind) == KindAfter(ops, o) && i.refs == OutAfter(ops, o) && i.count == |i.copies| + OutAfter(ops, o)
       && NoDup(i.copies) && forall k :: k in i.copies <==> SlotAfter(ops, k) == Some(o))
    && (o in s.young <==> YoungAfter(ops, o))
    && s.freed[o] == if KindAfter(ops, o) != None && !YoungAfter(ops, o) && !Referred(ops, o) then 1 else 0
  }

  /** In every run the operations alone tell what is in every slot, and everything about every object. */
  lemma History(ops: seq<Op>, r: Outcome)
    requires Reaches(ops, r)
    ensures r.At? && Inv(r.s)
    ensures forall k :: SlotAfter(ops, k) == if k in r.s.slots then Some(r.s.slots[k]) else None
    ensures forall o :: Told(ops, r.s, o)
  {
    hide Inv, Reaches, Told, RefsAgree, KindAgrees, AgeAgrees;
    RunAgrees(ops, r);
    forall o ensures Told(ops, r.s, o) { ObjTold(ops, r.s, o); }
  }

  lemma ObjTold(ops: seq<Op>, s: Caps, o: Obj)
    requires Inv(s) && Agrees(ops, s)
    ensures Told(ops, s, o)
  {
    assert RefsAgree(ops, s, o) && KindAgrees(ops, s, o) && AgeAgrees(ops, s, o);
    if o in s.objs {
      assert Exact(s.objs[o]);
      if s.objs[o].refs == 0 { assert SlotAfter(ops, s.objs[o].copies[0]) == Some(o); }
    }
  }
}
