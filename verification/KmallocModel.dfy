/**
The kernel allocator above the buddy system (`slab.c`, `kmalloc.c`): what is allocated, what the
slabs hold, and why no two allocations overlap.
*/
module KmallocModel {
  import opened BuddyBits
  import opened Lists

  const PAGE := 4096
  const SLAB_MIN_ORDER := 5
  const SLAB_MAX_ORDER := 11
  const SLAB_BYTES := 262144        // SIZE_OF_ONE_SLAB
  const SLAB_PAGES := 64
  const SLAB_PAGE_ORDER := 6

  /** `struct slab_header`, with the list of free slots, first element first */
  datatype Slab = Slab(order: int, free: seq<int>, count: int, total: int)

  datatype Heap = Heap(
    chunks: map<int, nat>,          // allocated buddy chunks: first page to order
    slabs: map<int, Slab>,          // by first page
    pageSlab: map<int, int>,        // page->slab
    current: map<int, int>,         // per order: current_slab
    partial: map<int, seq<int>>,    // per order: partial_slab_list
    live: map<int, int>)            // addresses handed out, with the size asked for

  predicate SlabOrder(k: int) { SLAB_MIN_ORDER <= k <= SLAB_MAX_ORDER }

  /** `order_to_size` for slab orders */
  function Z(k: int): int {
    if k == 5 then 32 else if k == 6 then 64 else if k == 7 then 128 else if k == 8 then 256
    else if k == 9 then 512 else if k == 10 then 1024 else 2048
  }

  /** Slots of one slab without the header's: `size / obj_size - 1` */
  function Total(k: int): int { SLAB_BYTES / Z(k) - 1 }

  lemma SlotSizes(k: int)
    requires SlabOrder(k)
    ensures Z(k) == Pow(k) && Z(k) * (Total(k) + 1) == SLAB_BYTES && Total(k) > 1
  {
    assert Pow(2) == 4 && Pow(4) == 16 && Pow(6) == 64 && Pow(8) == 256 && Pow(10) == 1024;
  }

  function SlotAt(s: int, k: int, i: int): int { s * PAGE + i * Z(k) }

  ghost predicate IsSlot(s: int, k: int, a: int) {
    exists i :: 1 <= i <= Total(k) && a == SlotAt(s, k, i)
  }

  // ---- the invariant ----

  /** Allocated chunks do not overlap. */
  ghost predicate Apart(chunks: map<int, nat>) {
    && (forall h <- chunks :: 0 <= h)
    && forall h <- chunks, g <- chunks :: h != g ==> h + Pow(chunks[h]) <= g || g + Pow(chunks[g]) <= h
  }

  ghost predicate SlabOk(s: int, b: Slab) {
    && SlabOrder(b.order) && b.total == Total(b.order) && b.count == |b.free| && NoDup(b.free)
    && forall a <- b.free :: IsSlot(s, b.order, a)
  }

  ghost predicate InSlab(s: int, p: int) { s <= p < s + SLAB_PAGES }

  ghost predicate Slabs(h: Heap) {
    && (forall s <- h.slabs :: s in h.chunks && h.chunks[s] == SLAB_PAGE_ORDER && SlabOk(s, h.slabs[s]))
    && (forall p <- h.pageSlab :: h.pageSlab[p] in h.slabs && InSlab(h.pageSlab[p], p))
    && (forall s <- h.slabs, p :: InSlab(s, p) ==> p in h.pageSlab && h.pageSlab[p] == s)
  }

  ghost predicate IsCurrent(h: Heap, s: int, k: int) { k in h.current && h.current[k] == s }

  ghost predicate IsPartial(h: Heap, s: int, k: int) { k in h.partial && s in h.partial[k] }

  /** A slab is the current one of its order, in the partial list, or full, in exactly one way. */
  ghost predicate Ranked(h: Heap) {
    && (forall k :: k in h.partial <==> SlabOrder(k))
    && (forall k <- h.current :: SlabOrder(k) && h.current[k] in h.slabs && h.slabs[h.current[k]].order == k)
    && (forall k <- h.partial :: NoDup(h.partial[k]) && forall s <- h.partial[k] ::
       s in h.slabs && h.slabs[s].order == k)
    && (forall s <- h.slabs :: Placed(h, s))
  }

  ghost predicate Placed(h: Heap, s: int)
    requires s in h.slabs
  {
    var b := h.slabs[s];
    && !(IsCurrent(h, s, b.order) && IsPartial(h, s, b.order))
    && (b.count == 0 <==> !IsCurrent(h, s, b.order) && !IsPartial(h, s, b.order))
  }

  /** A slot in use. */
  ghost predicate Small(h: Heap, s: int, a: int) {
    s in h.slabs && IsSlot(s, h.slabs[s].order, a) && a !in h.slabs[s].free
  }

  /** A chunk handed out whole. */
  ghost predicate Big(h: Heap, a: int) {
    a % PAGE == 0 && a / PAGE in h.chunks && a / PAGE !in h.slabs
  }

  ghost predicate InUse(h: Heap, a: int) {
    Big(h, a) || exists s <- h.slabs :: Small(h, s, a)
  }

  /** What is handed out is exactly the slots in use and the chunks that are not slabs, each at
  least as long as asked for. */
  ghost predicate LiveOk(h: Heap, a: int) {
    && (a in h.live <==> InUse(h, a))
    && (a in h.live ==> h.live[a] > 0)
    && (a in h.live && Big(h, a) ==> h.live[a] <= PAGE * Pow(h.chunks[a / PAGE]))
    && (a in h.live ==> forall s <- h.slabs :: Small(h, s, a) ==> h.live[a] <= Z(h.slabs[s].order))
  }

  ghost predicate Lives(h: Heap) {
    forall a {:trigger LiveOk(h, a)} :: LiveOk(h, a)
  }

  ghost predicate Inv(h: Heap) {
    Apart(h.chunks) && Slabs(h) && Ranked(h) && Lives(h)
  }

  /** No slab is wholly free, except in the middle of an operation on slab `x`. */
  ghost predicate NoneWhole(h: Heap, x: int) {
    forall s <- h.slabs :: s != x ==> h.slabs[s].count < h.slabs[s].total
  }

  // ---- no two live blocks overlap ----

  ghost predicate Disjoint(a: int, m: int, b: int, n: int) { a + m <= b || b + n <= a }

  /** A slot lies inside its slab, after the header. */
  lemma SlotInside(s: int, k: int, a: int)
    requires SlabOrder(k) && IsSlot(s, k, a)
    ensures s * PAGE + Z(k) <= a && a + Z(k) <= s * PAGE + SLAB_BYTES
    ensures InSlab(s, a / PAGE)
  {
    SlotSizes(k);
    var i :| 1 <= i <= Total(k) && a == SlotAt(s, k, i);
    Scale(1, i, Z(k));
    Scale(i + 1, Total(k) + 1, Z(k));
    assert (i + 1) * Z(k) == i * Z(k) + Z(k);
  }

  lemma Scale(i: int, j: int, z: int)
    requires i <= j && z > 0
    ensures i * z <= j * z
  {
  }

  lemma SlotsApart(s: int, k: int, a: int, b: int)
    requires SlabOrder(k) && IsSlot(s, k, a) && IsSlot(s, k, b) && a != b
    ensures Disjoint(a, Z(k), b, Z(k))
  {
    SlotSizes(k);
    var i :| 1 <= i <= Total(k) && a == SlotAt(s, k, i);
    var j :| 1 <= j <= Total(k) && b == SlotAt(s, k, j);
    assert (i + 1) * Z(k) == i * Z(k) + Z(k) && (j + 1) * Z(k) == j * Z(k) + Z(k);
    if i < j { Scale(i + 1, j, Z(k)); } else if j < i { Scale(j + 1, i, Z(k)); }
  }

  /** The chunk an allocation lies in, and that it fits there. */
  ghost predicate Within(h: Heap, c: int, a: int, n: int) {
    c in h.chunks && c * PAGE <= a && a + n <= (c + Pow(h.chunks[c])) * PAGE
  }

  lemma SmallWithin(h: Heap, s: int, a: int)
    requires Inv(h) && Small(h, s, a)
    ensures Within(h, s, a, Z(h.slabs[s].order)) && h.slabs[s].order <= SLAB_MAX_ORDER
    ensures SlabOrder(h.slabs[s].order) && s * PAGE + Z(h.slabs[s].order) <= a
    ensures a / PAGE in h.pageSlab && h.pageSlab[a / PAGE] == s && !Big(h, a)
  {
    hide Ranked, Lives;
    assert SlabOk(s, h.slabs[s]);
    SlotInside(s, h.slabs[s].order, a);
    assert Pow(6) == 64;
    ChunkOfPage(h, s, a / PAGE);
  }

  /** A page of a slab is the head of no other chunk. */
  lemma ChunkOfPage(h: Heap, s: int, p: int)
    requires Apart(h.chunks) && Slabs(h) && s in h.slabs && InSlab(s, p)
    ensures p in h.chunks ==> p == s
  {
    assert Pow(6) == 64;
    if p in h.chunks && p != s { PowAtLeastOne(h.chunks[p]); }
  }

  lemma PowAtLeastOne(k: nat)
    ensures Pow(k) >= 1
  {
  }

  lemma ChunksApart(h: Heap, c: int, a: int, m: int, d: int, b: int, n: int)
    requires Apart(h.chunks) && Within(h, c, a, m) && Within(h, d, b, n) && c != d
    ensures Disjoint(a, m, b, n)
  {
    if c + Pow(h.chunks[c]) <= d {
      Scale(c + Pow(h.chunks[c]), d, PAGE);
    } else {
      Scale(d + Pow(h.chunks[d]), c, PAGE);
    }
  }

  lemma BigWithin(h: Heap, a: int)
    requires Inv(h) && a in h.live && Big(h, a)
    ensures Within(h, a / PAGE, a, h.live[a])
  {
    hide Slabs, Ranked, Apart;
    assert LiveOk(h, a);
  }

  /** Live blocks are pairwise disjoint. */
  lemma LiveDisjoint(h: Heap, a: int, b: int)
    requires Inv(h) && a in h.live && b in h.live && a != b
    ensures Disjoint(a, h.live[a], b, h.live[b])
  {
    hide Slabs, Ranked, Apart, Big, Small;
    var c := Holder(h, a);
    var d := Holder(h, b);
    if c != d {
      InvApart(h);
      ChunksApart(h, c, a, h.live[a], d, b, h.live[b]);
    } else {
      SameHolder(h, a, b, c);
    }
  }

  lemma InvApart(h: Heap)
    requires Inv(h)
    ensures Apart(h.chunks)
  {
  }

  /** The chunk that holds a live block. */
  lemma Holder(h: Heap, a: int) returns (c: int)
    requires Inv(h) && a in h.live
    ensures Within(h, c, a, h.live[a]) && ((Big(h, a) && c == a / PAGE) || Small(h, c, a))
  {
    hide Slabs, Ranked, Apart;
    assert LiveOk(h, a);
    if Big(h, a) {
      c := a / PAGE;
      BigWithin(h, a);
    } else {
      c :| c in h.slabs && Small(h, c, a);
      SmallWithin(h, c, a);
    }
  }

  lemma SameHolder(h: Heap, a: int, b: int, c: int)
    requires Inv(h) && a in h.live && b in h.live && a != b
    requires (Big(h, a) && c == a / PAGE) || Small(h, c, a)
    requires (Big(h, b) && c == b / PAGE) || Small(h, c, b)
    ensures Disjoint(a, h.live[a], b, h.live[b])
  {
    hide Ranked, Apart;
    assert LiveOk(h, a) && LiveOk(h, b);
    if Small(h, c, a) && Small(h, c, b) {
      assert SlabOk(c, h.slabs[c]);
      SlotsApart(c, h.slabs[c].order, a, b);
    }
  }

  /** No live block overlaps a slab header. */
  lemma LiveOffHeaders(h: Heap, a: int, s: int)
    requires Inv(h) && a in h.live && s in h.slabs
    ensures Disjoint(a, h.live[a], s * PAGE, Z(h.slabs[s].order))
  {
    hide Ranked, Lives;
    var c := Holder(h, a);
    assert SlabOk(s, h.slabs[s]);
    assert Pow(6) == 64;
    if c == s {
      if Small(h, c, a) { SmallWithin(h, c, a); }
    } else {
      assert Within(h, s, s * PAGE, Z(h.slabs[s].order));
      ChunksApart(h, c, a, h.live[a], s, s * PAGE, Z(h.slabs[s].order));
    }
  }

  /** `_kfree` tells slab slots from whole chunks by the page they lie in. */
  lemma Dispatch(h: Heap, a: int)
    requires Inv(h) && a in h.live
    ensures a / PAGE in h.pageSlab <==> !Big(h, a)
    ensures a / PAGE in h.pageSlab ==> Small(h, h.pageSlab[a / PAGE], a)
  {
    hide Ranked, Apart;
    assert LiveOk(h, a);
    if Big(h, a) {
      if a / PAGE in h.pageSlab {
        InvApart(h);
        ChunkOfPage(h, h.pageSlab[a / PAGE], a / PAGE);
      }
    } else {
      var s :| s in h.slabs && Small(h, s, a);
      SmallWithin(h, s, a);
    }
  }
}
