/** What one allocation or release does to the heap, and that it keeps the invariant. */
module KmallocSteps {
  import opened BuddyBits
  import opened Lists
  import opened KmallocModel

  /** The slots of a new slab, in order. */
  function Fresh(s: int, k: int, n: nat): (l: seq<int>)
    ensures |l| == n && forall j :: 0 <= j < n ==> l[j] == SlotAt(s, k, j + 1)
  {
    if n == 0 then [] else Fresh(s, k, n - 1) + [SlotAt(s, k, n)]
  }

  /** `set_or_clear_slab_in_page`, setting */
  function Marked(m: map<int, int>, s: int, n: nat): (r: map<int, int>)
    ensures forall p :: p in r <==> p in m || s <= p < s + n
    ensures forall p <- r :: r[p] == if s <= p < s + n then s else m[p]
  {
    if n == 0 then m else Marked(m, s, n - 1)[s + n - 1 := s]
  }

  /** `set_or_clear_slab_in_page`, clearing */
  function Unmarked(m: map<int, int>, s: int, n: nat): (r: map<int, int>)
    ensures forall p :: p in r <==> p in m && !(s <= p < s + n)
    ensures forall p <- r :: r[p] == m[p]
  {
    if n == 0 then m else Unmarked(m, s, n - 1) - {s + n - 1}
  }

  /** `init_slab_cache` of order `k` in the chunk at page `s`, as the current slab */
  ghost function AddSlab(h: Heap, s: int, k: int): Heap
    requires SlabOrder(k)
  {
    SlotSizes(k);
    h.(chunks := h.chunks[s := SLAB_PAGE_ORDER],
      slabs := h.slabs[s := Slab(k, Fresh(s, k, Total(k)), Total(k), Total(k))],
      pageSlab := Marked(h.pageSlab, s, SLAB_PAGES), current := h.current[k := s])
  }

  /** `choose_new_current_slab` */
  function Choose(h: Heap, k: int): Heap
    requires k in h.partial
  {
    if h.partial[k] == [] then h.(current := h.current - {k})
    else h.(current := h.current[k := h.partial[k][0]], partial := h.partial[k := h.partial[k][1..]])
  }

  /** `alloc_in_slab_impl` from the current slab: the first free slot goes out for `n` bytes. */
  ghost function Take(h: Heap, k: int, n: int): Heap
    requires k in h.current && h.current[k] in h.slabs && h.slabs[h.current[k]].free != [] && k in h.partial
  {
    var s := h.current[k];
    var b := h.slabs[s];
    var t := h.(slabs := h.slabs[s := b.(free := b.free[1..], count := b.count - 1)], live := h.live[b.free[0] := n]);
    if b.count == 1 then Choose(t, k) else t
  }

  /** `free_in_slab`, before the slab may be returned */
  ghost function PutBack(h: Heap, s: int, a: int): Heap
    requires s in h.slabs && h.slabs[s].order in h.partial
  {
    var b := h.slabs[s];
    var t := h.(slabs := h.slabs[s := b.(free := [a] + b.free, count := b.count + 1)], live := h.live - {a});
    if b.count == 0 then t.(partial := t.partial[b.order := t.partial[b.order] + [s]]) else t
  }

  /** `try_return_slab_to_buddy` of a wholly free slab */
  ghost function ReturnSlab(h: Heap, s: int): Heap
    requires s in h.slabs && h.slabs[s].order in h.partial
  {
    var k := h.slabs[s].order;
    var t := if IsCurrent(h, s, k) then Choose(h, k) else h.(partial := h.partial[k := Without(h.partial[k], s)]);
    t.(slabs := t.slabs - {s}, chunks := t.chunks - {s}, pageSlab := Unmarked(t.pageSlab, s, SLAB_PAGES))
  }

  /** `free_in_slab` */
  ghost function Freed(h: Heap, s: int, a: int): Heap
    requires s in h.slabs && h.slabs[s].order in h.partial
  {
    var t := PutBack(h, s, a);
    if t.slabs[s].count == t.slabs[s].total then ReturnSlab(t, s) else t
  }

  /** `get_pages`: chunk `p` of order `o` goes out for `n` bytes. */
  function AddBig(h: Heap, p: int, o: nat, n: int): Heap {
    h.(chunks := h.chunks[p := o], live := h.live[p * PAGE := n])
  }

  function DropBig(h: Heap, p: int): Heap {
    h.(chunks := h.chunks - {p}, live := h.live - {p * PAGE})
  }

  // ---- whole chunks ----

  lemma AddBigKeeps(h: Heap, p: int, o: nat, n: int)
    requires Inv(h) && p !in h.chunks && Apart(h.chunks[p := o]) && 0 < n <= PAGE * Pow(o)
    ensures Inv(AddBig(h, p, o, n))
  {
    hide Pow, IsSlot, Apart, SlabOk, Placed;
    var t := AddBig(h, p, o, n);
    assert Lives(t) by { AddBigLives(h, p, o, n); }
    assert Ranked(t) by { RankedSame(h, t); }
  }

  lemma RankedSame(h: Heap, t: Heap)
    requires Ranked(h) && t.slabs == h.slabs && t.current == h.current && t.partial == h.partial
    ensures Ranked(t)
  {
    assert forall s <- t.slabs :: Placed(h, s) ==> Placed(t, s);
  }

  /** Nothing about a slot changes when its slab does not. */
  lemma SameSmalls(h: Heap, t: Heap, a: int)
    requires t.slabs == h.slabs
    ensures forall s :: Small(t, s, a) <==> Small(h, s, a)
  {
    hide IsSlot;
  }

  lemma NoSlab(h: Heap, p: int)
    requires Inv(h) && p !in h.chunks
    ensures p !in h.slabs
  {
  }

  lemma NewHeadUnused(h: Heap, p: int, o: nat)
    requires Inv(h) && p !in h.chunks && Apart(h.chunks[p := o])
    ensures forall s :: !Small(h, s, p * PAGE)
  {
    hide Inv, Apart;
    forall s ensures !Small(h, s, p * PAGE) { if s in h.slabs { NewHeadOff(h, p, o, s); } }
  }

  lemma BigNotSmall(h: Heap, a: int)
    requires Inv(h) && Big(h, a)
    ensures forall s :: !Small(h, s, a)
  {
    hide Inv;
    forall s ensures !Small(h, s, a) { if Small(h, s, a) { SmallWithin(h, s, a); } }
  }

  lemma AddBigLives(h: Heap, p: int, o: nat, n: int)
    requires Inv(h) && p !in h.chunks && Apart(h.chunks[p := o]) && 0 < n <= PAGE * Pow(o)
    ensures Lives(AddBig(h, p, o, n))
  {
    hide Pow, IsSlot, Apart, SlabOk, Ranked, Slabs;
    var t := AddBig(h, p, o, n);
    NoSlab(h, p);
    forall a ensures LiveOk(t, a) {
      assert LiveOk(h, a);
      assert Big(t, a) <==> Big(h, a) || a == p * PAGE;
      SameSmalls(h, t, a);
      if a == p * PAGE { NewHeadUnused(h, p, o); }
    }
  }

  /** A new chunk does not start inside a slab. */
  lemma NewHeadOff(h: Heap, p: int, o: nat, s: int)
    requires Inv(h) && p !in h.chunks && Apart(h.chunks[p := o]) && s in h.slabs
    ensures !InSlab(s, p) && !Small(h, s, p * PAGE)
  {
    hide Ranked, Lives, IsSlot;
    var c := h.chunks[p := o];
    assert c[s] == SLAB_PAGE_ORDER && c[p] == o && Pow(6) == 64 && Pow(o) >= 1;
    if Small(h, s, p * PAGE) { SmallWithin(h, s, p * PAGE); }
  }

  lemma DropBigKeeps(h: Heap, p: int)
    requires Inv(h) && Big(h, p * PAGE)
    ensures Inv(DropBig(h, p))
  {
    hide Pow, SlabOk, Lives, Ranked, Apart, Big;
    var t := DropBig(h, p);
    DropBigLives(h, p);
    RankedSame(h, t);
    ApartLess(h.chunks, p);
    BigNoSlab(h, p);
  }

  lemma BigNoSlab(h: Heap, p: int)
    requires Big(h, p * PAGE)
    ensures p in h.chunks && p !in h.slabs
  {
  }

  lemma DropBigLives(h: Heap, p: int)
    requires Inv(h) && Big(h, p * PAGE)
    ensures Lives(DropBig(h, p))
  {
    hide Pow, IsSlot, SlabOk, Ranked, Apart, Slabs;
    var t := DropBig(h, p);
    forall a ensures LiveOk(t, a) {
      assert LiveOk(h, a);
      assert Big(t, a) <==> Big(h, a) && a != p * PAGE;
      SameSmalls(h, t, a);
      if a == p * PAGE { BigNotSmall(h, p * PAGE); }
    }
  }

  // ---- a slab is added ----

  lemma FreshOk(s: int, k: int)
    requires SlabOrder(k)
    ensures Total(k) > 1 && SlabOk(s, Slab(k, Fresh(s, k, Total(k)), Total(k), Total(k)))
    ensures forall a :: IsSlot(s, k, a) ==> a in Fresh(s, k, Total(k))
  {
    hide Total, Z;
    SlotSizes(k);
    var l := Fresh(s, k, Total(k));
    forall i, j | 0 <= i < j < |l| ensures l[i] != l[j] {
      Scale(i + 2, j + 1, Z(k));
      assert (i + 2) * Z(k) == (i + 1) * Z(k) + Z(k);
    }
    forall a | IsSlot(s, k, a) ensures a in l {
      var i :| 1 <= i <= Total(k) && a == SlotAt(s, k, i);
      assert l[i - 1] == a;
    }
  }

  lemma NewSlabOff(h: Heap, s: int, u: int, p: int)
    requires Slabs(h) && s !in h.chunks && Apart(h.chunks[s := SLAB_PAGE_ORDER]) && u in h.slabs && InSlab(u, p)
    ensures !InSlab(s, p)
  {
    hide SlabOk;
    var c := h.chunks[s := SLAB_PAGE_ORDER];
    assert c[u] == SLAB_PAGE_ORDER && c[s] == SLAB_PAGE_ORDER && Pow(6) == 64;
  }

  lemma AddSlabSlabs(h: Heap, s: int, k: int)
    requires Inv(h) && s !in h.chunks && Apart(h.chunks[s := SLAB_PAGE_ORDER]) && SlabOrder(k)
    ensures Slabs(AddSlab(h, s, k))
  {
    hide Ranked, Lives, IsSlot, SlabOk, Fresh, Apart, Pow, Total, Z;
    FreshOk(s, k);
    forall u <- h.slabs, p | InSlab(u, p) ensures !InSlab(s, p) { NewSlabOff(h, s, u, p); }
  }

  lemma AddSlabLives(h: Heap, s: int, k: int)
    requires Inv(h) && s !in h.chunks && SlabOrder(k)
    ensures Lives(AddSlab(h, s, k))
  {
    hide Ranked, Apart, IsSlot, SlabOk, Fresh, Z, Total, Pow, Slabs;
    FreshOk(s, k);
    NoSlab(h, s);
    var t := AddSlab(h, s, k);
    forall a ensures LiveOk(t, a) {
      assert LiveOk(h, a);
      assert Big(t, a) <==> Big(h, a);
      assert !Small(t, s, a);
      assert forall u :: u != s ==> (Small(t, u, a) <==> Small(h, u, a));
      assert InUse(t, a) <==> InUse(h, a);
    }
  }

  lemma AddSlabRanked(h: Heap, s: int, k: int)
    requires Inv(h) && s !in h.chunks && SlabOrder(k) && k !in h.current
    ensures Ranked(AddSlab(h, s, k))
  {
    hide Apart, Lives, IsSlot, Fresh, Z, Total, Pow, SlabOk;
    FreshOk(s, k);
    var t := AddSlab(h, s, k);
    forall u <- t.slabs ensures Placed(t, u) {
      if u != s { assert Placed(h, u); }
    }
  }

  lemma AddSlabKeeps(h: Heap, s: int, k: int)
    requires Inv(h) && s !in h.chunks && Apart(h.chunks[s := SLAB_PAGE_ORDER]) && SlabOrder(k) && k !in h.current
    ensures Inv(AddSlab(h, s, k))
    ensures NoneWhole(h, s) ==> NoneWhole(AddSlab(h, s, k), s)
  {
    hide Slabs, Ranked, Lives, Apart;
    AddSlabSlabs(h, s, k);
    AddSlabLives(h, s, k);
    AddSlabRanked(h, s, k);
  }

  // ---- a slot is taken ----

  /** Exchanging one slab's free list, the order and the other slabs staying. */
  lemma SlabsUpdate(h: Heap, t: Heap, s: int, b: Slab)
    requires Slabs(h) && s in h.slabs && SlabOk(s, b) && t.slabs == h.slabs[s := b] && t.chunks == h.chunks
      && t.pageSlab == h.pageSlab
    ensures Slabs(t)
  {
    hide SlabOk;
  }

  lemma TailOk(s: int, b: Slab)
    requires SlabOk(s, b) && b.free != []
    ensures SlabOk(s, b.(free := b.free[1..], count := b.count - 1)) && b.free[0] !in b.free[1..]
    ensures IsSlot(s, b.order, b.free[0])
  {
    hide IsSlot, Total, Z;
    NoDupTail(b.free);
    assert forall a <- b.free[1..] :: a in b.free;
    assert b.free[0] in b.free;
  }

  /** The current slab has a free slot. */
  lemma CurrentHasFree(h: Heap, k: int)
    requires Inv(h) && k in h.current
    ensures h.current[k] in h.slabs && SlabOk(h.current[k], h.slabs[h.current[k]]) && h.slabs[h.current[k]].order == k
    ensures h.slabs[h.current[k]].free != [] && h.slabs[h.current[k]].count > 0 && k in h.partial
  {
    hide Apart, Lives;
    assert Placed(h, h.current[k]);
  }

  lemma TakeLives(h: Heap, k: int, n: int)
    requires Inv(h) && k in h.current && 0 < n <= Z(k)
    requires h.current[k] in h.slabs && h.slabs[h.current[k]].order == k && h.slabs[h.current[k]].free != []
      && k in h.partial
    ensures Lives(Take(h, k, n))
  {
    hide Ranked, Apart, SlabOk, Z, Pow, IsSlot, Slabs;
    var s := h.current[k];
    var b := h.slabs[s];
    var a := b.free[0];
    var t := Take(h, k, n);
    TakeSmall(h, k, n);
    assert t.slabs.Keys == h.slabs.Keys && t.chunks == h.chunks;
    forall x ensures LiveOk(t, x) {
      assert LiveOk(h, x);
      assert Big(t, x) <==> Big(h, x);
      if x == a {
        assert Small(t, s, a);
      } else {
        assert InUse(t, x) <==> InUse(h, x);
        assert forall u <- t.slabs :: t.slabs[u].order == h.slabs[u].order;
      }
    }
  }

  /** Which slots are in use after `Take`: the one taken, and those before. */
  lemma TakeSmall(h: Heap, k: int, n: int)
    requires Inv(h) && k in h.current && h.current[k] in h.slabs && h.slabs[h.current[k]].order == k
    requires h.slabs[h.current[k]].free != [] && k in h.partial
    ensures var a := h.slabs[h.current[k]].free[0];
      && Small(Take(h, k, n), h.current[k], a) && !Big(h, a)
      && (forall u :: Small(Take(h, k, n), u, a) ==> u == h.current[k])
      && (forall u, x :: x != a ==> (Small(Take(h, k, n), u, x) <==> Small(h, u, x)))
  {
    hide Ranked, Apart, Lives, Z, Pow, IsSlot, SlabOk;
    var s := h.current[k];
    var b := h.slabs[s];
    var a := b.free[0];
    var t := Take(h, k, n);
    CurrentHasFree(h, k);
    TailOk(s, b);
    assert forall x :: x in b.free <==> x == a || x in b.free[1..];
    SlotOfOne(h, s, a);
    forall u | Small(t, u, a) ensures u == s { if u != s { SlotOfOne(h, u, a); } }
  }

  /** A slot address belongs to one slab and is no chunk of its own. */
  lemma SlotOfOne(h: Heap, s: int, a: int)
    requires Inv(h) && s in h.slabs && IsSlot(s, h.slabs[s].order, a)
    ensures a / PAGE in h.pageSlab && h.pageSlab[a / PAGE] == s && !Big(h, a)
  {
    hide Ranked, Lives, IsSlot;
    assert SlabOk(s, h.slabs[s]);
    SlotInside(s, h.slabs[s].order, a);
    ChunkOfPage(h, s, a / PAGE);
  }

  lemma ChooseRanked(h: Heap, k: int, s: int)
    requires k in h.partial && SlabOrder(k)
    requires forall j :: j in h.partial <==> SlabOrder(j)
    requires forall j <- h.current :: SlabOrder(j) && h.current[j] in h.slabs && h.slabs[h.current[j]].order == j
    requires forall j <- h.partial :: NoDup(h.partial[j]) && forall u <- h.partial[j] ::
      u in h.slabs && h.slabs[u].order == j
    requires forall u <- h.slabs :: u != s ==> Placed(h, u)
    requires s in h.slabs && h.slabs[s].order == k && h.slabs[s].count == 0 && IsCurrent(h, s, k) && !IsPartial(h, s, k)
    ensures Ranked(Choose(h, k))
  {
    var t := Choose(h, k);
    if h.partial[k] != [] {
      NoDupTail(h.partial[k]);
      assert h.partial[k][0] in h.partial[k] && Placed(h, h.partial[k][0]);
    }
    forall u <- t.slabs ensures Placed(t, u) {
      if u != s { assert Placed(h, u); }
    }
  }

  lemma TakeRanked(h: Heap, k: int, n: int)
    requires Inv(h) && k in h.current
    requires h.current[k] in h.slabs && h.slabs[h.current[k]].order == k && h.slabs[h.current[k]].free != []
      && k in h.partial
    ensures Ranked(Take(h, k, n))
  {
    hide Apart, Lives, SlabOk, IsSlot, Choose;
    CurrentHasFree(h, k);
    var s := h.current[k];
    var b := h.slabs[s];
    var t := h.(slabs := h.slabs[s := b.(free := b.free[1..], count := b.count - 1)], live := h.live[b.free[0] := n]);
    assert Placed(h, s);
    forall u <- h.slabs | u != s ensures Placed(t, u) { assert Placed(h, u); }
    if b.count == 1 {
      ChooseRanked(t, k, s);
    } else {
      assert Placed(t, s);
    }
  }

  lemma TakeKeeps(h: Heap, k: int, n: int)
    requires Inv(h) && k in h.current && 0 < n <= Z(k)
    ensures h.current[k] in h.slabs && h.slabs[h.current[k]].free != [] && k in h.partial
    ensures Inv(Take(h, k, n))
    ensures NoneWhole(h, h.current[k]) ==> NoneWhole(Take(h, k, n), NO_SLAB)
    ensures h.slabs[h.current[k]].free[0] !in h.live
  {
    hide Ranked, Lives, Apart, Slabs, SlabOk;
    CurrentHasFree(h, k);
    var s := h.current[k];
    TakeLives(h, k, n);
    TakeRanked(h, k, n);
    TakeSlabs(h, k, n);
    TakenWasFree(h, s);
  }

  const NO_SLAB := -1

  lemma TakeSlabs(h: Heap, k: int, n: int)
    requires Inv(h) && k in h.current
    requires h.current[k] in h.slabs && h.slabs[h.current[k]].order == k && h.slabs[h.current[k]].free != []
      && k in h.partial
    ensures Slabs(Take(h, k, n)) && Take(h, k, n).chunks == h.chunks
    ensures NoneWhole(h, h.current[k]) ==> NoneWhole(Take(h, k, n), NO_SLAB)
  {
    hide Ranked, Lives, Apart, IsSlot, Slabs;
    CurrentHasFree(h, k);
    var s := h.current[k];
    var b := h.slabs[s];
    TailOk(s, b);
    SlabsUpdate(h, Take(h, k, n), s, b.(free := b.free[1..], count := b.count - 1));
    FreeBound(s, b);
  }

  lemma TakenWasFree(h: Heap, s: int)
    requires Inv(h) && s in h.slabs && h.slabs[s].free != []
    ensures h.slabs[s].free[0] !in h.live
  {
    hide Ranked, Apart;
    var a := h.slabs[s].free[0];
    assert a in h.slabs[s].free && SlabOk(s, h.slabs[s]);
    SlotOfOne(h, s, a);
    if a in h.live { Dispatch(h, a); }
  }

  /** A free list is never longer than the slab. */
  lemma FreeBound(s: int, b: Slab)
    requires SlabOk(s, b)
    ensures b.count <= b.total
    ensures b.count == b.total ==> forall a :: IsSlot(s, b.order, a) ==> a in b.free
  {
    hide IsSlot, Total, Z;
    FreshOk(s, b.order);
    var l := Fresh(s, b.order, Total(b.order));
    FreshAll(s, b.order);
    SubsetSize(b.free, l);
  }

  lemma FreshAll(s: int, k: int)
    requires SlabOrder(k)
    ensures Total(k) > 1 && forall a :: IsSlot(s, k, a) <==> a in Fresh(s, k, Total(k))
  {
    hide Total, Z;
    FreshOk(s, k);
  }

  // ---- a slot is given back ----

  lemma PutBackOk(h: Heap, s: int, a: int)
    requires Inv(h) && Small(h, s, a)
    ensures SlabOk(s, h.slabs[s])
      && SlabOk(s, h.slabs[s].(free := [a] + h.slabs[s].free, count := h.slabs[s].count + 1))
  {
    hide Ranked, Lives, Apart, IsSlot, Total, Z;
    var b := h.slabs[s];
    assert SlabOk(s, b);
    NoDupCons(a, b.free);
  }

  lemma PutBackLives(h: Heap, s: int, a: int)
    requires Inv(h) && Small(h, s, a) && h.slabs[s].order in h.partial
    ensures Lives(PutBack(h, s, a))
  {
    hide Ranked, Apart, SlabOk, Z, Pow, IsSlot, Slabs;
    var t := PutBack(h, s, a);
    SlotOfOne(h, s, a);
    forall u | Small(h, u, a) ensures u == s { SlotOfOne(h, u, a); }
    forall u ensures !Small(t, u, a) {
      if u != s { assert Small(t, u, a) <==> Small(h, u, a); }
    }
    assert t.slabs.Keys == h.slabs.Keys && t.chunks == h.chunks;
    forall x ensures LiveOk(t, x) {
      assert LiveOk(h, x);
      assert Big(t, x) <==> Big(h, x);
      if x != a {
        assert forall u :: Small(t, u, x) <==> Small(h, u, x);
        assert InUse(t, x) <==> InUse(h, x);
        assert forall u <- t.slabs :: t.slabs[u].order == h.slabs[u].order;
      }
    }
  }

  lemma PutBackRanked(h: Heap, s: int, a: int)
    requires Inv(h) && Small(h, s, a) && h.slabs[s].order in h.partial
    ensures Ranked(PutBack(h, s, a))
  {
    hide Apart, Lives, IsSlot, SlabOk, Z, Total;
    PutBackOk(h, s, a);
    CountsNat(h, s);
    var t := PutBack(h, s, a);
    var b := h.slabs[s];
    assert Placed(h, s);
    if b.count == 0 { NoDupSnoc(h.partial[b.order], s); }
    forall u <- t.slabs ensures Placed(t, u) { assert Placed(h, u); }
  }

  lemma CountsNat(h: Heap, s: int)
    requires Slabs(h) && s in h.slabs
    ensures h.slabs[s].count >= 0
  {
  }

  lemma PutBackKeeps(h: Heap, s: int, a: int)
    requires Inv(h) && Small(h, s, a)
    ensures h.slabs[s].order in h.partial && Inv(PutBack(h, s, a)) && s in PutBack(h, s, a).slabs
    ensures NoneWhole(h, NO_SLAB) ==> NoneWhole(PutBack(h, s, a), s)
    ensures PutBack(h, s, a).slabs[s].count <= PutBack(h, s, a).slabs[s].total
  {
    hide Apart, IsSlot, SlabOk, Lives, Slabs;
    PutBackOk(h, s, a);
    OrderKnown(h, s);
    PutBackLives(h, s, a);
    PutBackRanked(h, s, a);
    var b := h.slabs[s].(free := [a] + h.slabs[s].free, count := h.slabs[s].count + 1);
    SlabsUpdate(h, PutBack(h, s, a), s, b);
    FreeBound(s, b);
    if NoneWhole(h, NO_SLAB) { SlabPages(h); }
  }

  lemma OrderKnown(h: Heap, s: int)
    requires Inv(h) && s in h.slabs
    ensures SlabOrder(h.slabs[s].order) && h.slabs[s].order in h.partial
  {
  }

  lemma SlabPages(h: Heap)
    requires Inv(h)
    ensures NO_SLAB !in h.slabs
  {
  }

  // ---- a wholly free slab is returned ----

  lemma NothingLive(h: Heap, s: int, a: int)
    requires Inv(h) && s in h.slabs && h.slabs[s].count == h.slabs[s].total
    ensures !Small(h, s, a)
  {
    hide Ranked, Lives, Apart, IsSlot;
    assert SlabOk(s, h.slabs[s]);
    FreeBound(s, h.slabs[s]);
  }

  lemma LivesRemoved(h: Heap, t: Heap, s: int)
    requires Inv(h) && s in h.slabs && h.slabs[s].count == h.slabs[s].total
    requires t.slabs == h.slabs - {s} && t.chunks == h.chunks - {s} && t.live == h.live
    ensures Lives(t)
  {
    hide Ranked, Apart, SlabOk, Z, Pow, IsSlot, Slabs;
    forall a ensures LiveOk(t, a) {
      assert LiveOk(h, a);
      NothingLive(h, s, a);
      assert Big(t, a) <==> Big(h, a);
      assert forall u :: Small(t, u, a) <==> Small(h, u, a);
      assert InUse(t, a) <==> InUse(h, a);
    }
  }

  lemma SlabsRemoved(h: Heap, t: Heap, s: int)
    requires Slabs(h) && s in h.slabs && t.slabs == h.slabs - {s} && t.chunks == h.chunks - {s}
    requires forall p :: p in t.pageSlab <==> p in h.pageSlab && !InSlab(s, p)
    requires forall p <- t.pageSlab :: t.pageSlab[p] == h.pageSlab[p]
    ensures Slabs(t)
  {
    hide SlabOk;
    forall p <- t.pageSlab ensures t.pageSlab[p] in t.slabs && InSlab(t.pageSlab[p], p) {
      assert h.pageSlab[p] in h.slabs && InSlab(h.pageSlab[p], p);
    }
    forall u <- t.slabs, p | InSlab(u, p) ensures p in t.pageSlab && t.pageSlab[p] == u {
      assert p in h.pageSlab && h.pageSlab[p] == u;
    }
  }

  lemma ChooseFields(h: Heap, k: int)
    requires k in h.partial
    ensures var t := Choose(h, k);
      t.slabs == h.slabs && t.chunks == h.chunks && t.live == h.live && t.pageSlab == h.pageSlab
  {
  }

  /** Which fields `ReturnSlab` changes, and how. */
  lemma ReturnFields(h: Heap, s: int)
    requires s in h.slabs && h.slabs[s].order in h.partial
    ensures var t, k := ReturnSlab(h, s), h.slabs[s].order;
      && t.slabs == h.slabs - {s} && t.chunks == h.chunks - {s} && t.live == h.live
      && t.pageSlab == Unmarked(h.pageSlab, s, SLAB_PAGES)
      && (IsCurrent(h, s, k) ==> t.current == Choose(h, k).current && t.partial == Choose(h, k).partial)
      && (!IsCurrent(h, s, k) ==> t.current == h.current && t.partial == h.partial[k := Without(h.partial[k], s)])
  {
    hide Without, Unmarked, Choose;
    ChooseFields(h, h.slabs[s].order);
  }

  lemma ApartLess(chunks: map<int, nat>, s: int)
    requires Apart(chunks)
    ensures Apart(chunks - {s})
  {
    hide Pow;
  }

  /** The current slab of `k` goes with nothing to take its place, */
  lemma RankedDropped(h: Heap, t: Heap, s: int, k: int)
    requires Ranked(h) && s in h.slabs && h.slabs[s].order == k && IsCurrent(h, s, k) && k in h.partial
      && h.partial[k] == []
    requires t.slabs == h.slabs - {s} && t.current == h.current - {k} && t.partial == h.partial
    ensures Ranked(t)
  {
    hide NoDup;
    forall u <- t.slabs ensures Placed(t, u) { assert Placed(h, u); }
  }

  /** or with the head of the partial list `l` taking over. */
  lemma RankedReplaced(h: Heap, t: Heap, s: int, k: int, l: seq<int>)
    requires Ranked(h) && s in h.slabs && h.slabs[s].order == k && IsCurrent(h, s, k) && k in h.partial
      && h.partial[k] == l && l != []
    requires t.slabs == h.slabs - {s} && t.current == h.current[k := l[0]] && t.partial == h.partial[k := l[1..]]
    ensures Ranked(t)
  {
    hide NoDup;
    assert Placed(h, s);
    NoDupTail(l);
    assert !IsPartial(h, s, k) && l[0] in l && l[0] != s;
    forall v <- l[1..] ensures v in t.slabs && t.slabs[v].order == k { assert v in l; }
    forall u <- t.slabs ensures Placed(t, u) { assert Placed(h, u) && (u in l <==> u == l[0] || u in l[1..]); }
  }

  lemma ReturnedCurrent(h: Heap, t: Heap, s: int)
    requires Inv(h) && s in h.slabs && h.slabs[s].order in h.partial && IsCurrent(h, s, h.slabs[s].order)
    requires t.slabs == h.slabs - {s} && t.current == Choose(h, h.slabs[s].order).current
      && t.partial == Choose(h, h.slabs[s].order).partial
    ensures Ranked(t)
  {
    hide Apart, Lives, Slabs, Ranked;
    var k := h.slabs[s].order;
    if h.partial[k] == [] { RankedDropped(h, t, s, k); } else { RankedReplaced(h, t, s, k, h.partial[k]); }
  }

  lemma RankedPartial(h: Heap, t: Heap, s: int)
    requires Inv(h) && s in h.slabs && h.slabs[s].order in h.partial && !IsCurrent(h, s, h.slabs[s].order)
    requires t.slabs == h.slabs - {s} && t.current == h.current
    requires t.partial == h.partial[h.slabs[s].order := Without(h.partial[h.slabs[s].order], s)]
    ensures Ranked(t)
  {
    hide Apart, Lives, SlabOk, NoDup, Slabs, Without;
    WithoutIs(h.partial[h.slabs[s].order], s);
    forall u <- t.slabs ensures Placed(t, u) { assert Placed(h, u); }
  }

  lemma ReturnKeeps(h: Heap, s: int)
    requires Inv(h) && s in h.slabs && h.slabs[s].count == h.slabs[s].total
    ensures h.slabs[s].order in h.partial && Inv(ReturnSlab(h, s))
    ensures NoneWhole(h, s) ==> NoneWhole(ReturnSlab(h, s), NO_SLAB)
  {
    hide Apart, Lives, Slabs, Ranked, ReturnSlab, Choose, Without, Unmarked;
    OrderKnown(h, s);
    ReturnFields(h, s);
    var t := ReturnSlab(h, s);
    LivesRemoved(h, t, s);
    ApartLess(h.chunks, s);
    SlabsRemoved(h, t, s);
    if IsCurrent(h, s, h.slabs[s].order) { ReturnedCurrent(h, t, s); } else { RankedPartial(h, t, s); }
  }

  /** A new slab: all its slots are free, in order, and all its pages are marked. */
  ghost predicate FreshSlab(h: Heap, s: int, k: int) {
    && s in h.slabs && h.slabs[s].order == k && h.slabs[s].count == h.slabs[s].total == |h.slabs[s].free| == Total(k)
    && (forall i :: 0 <= i < Total(k) ==> h.slabs[s].free[i] == SlotAt(s, k, i + 1))
    && forall p :: InSlab(s, p) ==> p in h.pageSlab && h.pageSlab[p] == s
  }

  lemma AddSlabFresh(h: Heap, s: int, k: int)
    requires SlabOrder(k)
    ensures FreshSlab(AddSlab(h, s, k), s, k)
  {
    SlotSizes(k);
  }

  /** The current slab of order `k` is replaced by the first partial one, if there is one; other orders stay. */
  ghost predicate Replaced(h: Heap, t: Heap, k: int)
    requires k in h.partial
  {
    if h.partial[k] == [] then k !in t.current && t.current == h.current - {k} && t.partial == h.partial
    else
      && k in t.current && t.current[k] == h.partial[k][0] && t.current == h.current[k := t.current[k]]
      && t.partial == h.partial[k := h.partial[k][1..]]
  }

  /** What handing out a slot does: the first free slot of the current slab goes, and the slab is replaced when
  that was its last one. */
  lemma TakeMeans(h: Heap, k: int, n: int)
    requires k in h.current && h.current[k] in h.slabs && h.slabs[h.current[k]].free != [] && k in h.partial
    ensures var t, s := Take(h, k, n), h.current[k]; var b := h.slabs[s];
      && t.slabs == h.slabs[s := b.(free := b.free[1..], count := b.count - 1)] && t.live == h.live[b.free[0] := n]
      && t.chunks == h.chunks && t.pageSlab == h.pageSlab
      && (b.count == 1 ==> Replaced(h, t, k))
      && (b.count != 1 ==> t.current == h.current && t.partial == h.partial)
  {
  }

  /** What a release does: the slot is the first free one again; a full slab joins the tail of the
  partial list; a slab that is wholly free now is gone, with its chunk and all its page marks. */
  lemma FreedMeans(h: Heap, s: int, a: int)
    requires s in h.slabs && h.slabs[s].order in h.partial && h.slabs[s].total > 1
    ensures var t, b := Freed(h, s, a), h.slabs[s]; var k := b.order;
      && t.live == h.live - {a}
      && (b.count + 1 != b.total ==>
         && t.slabs == h.slabs[s := b.(free := [a] + b.free, count := b.count + 1)]
         && t.chunks == h.chunks && t.pageSlab == h.pageSlab && t.current == h.current
         && t.partial == if b.count == 0 then h.partial[k := h.partial[k] + [s]] else h.partial)
      && (b.count + 1 == b.total ==>
         && t.slabs == h.slabs - {s} && t.chunks == h.chunks - {s}
         && (forall p :: p in t.pageSlab <==> p in h.pageSlab && !InSlab(s, p))
         && (forall p <- t.pageSlab :: t.pageSlab[p] == h.pageSlab[p])
         && (IsCurrent(h, s, k) ==> Replaced(h, t, k))
         && (!IsCurrent(h, s, k) ==> t.current == h.current && t.partial == h.partial[k := Without(h.partial[k], s)]))
  {
    hide Without, Unmarked, ReturnSlab;
    ReturnFields(PutBack(h, s, a), s);
  }
}
