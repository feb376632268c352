/** `kmalloc` and `kfree` on a buddy pool: slabs for small sizes, whole chunks for large ones. */
module Kmalloc {
  import opened BuddyBits
  import opened BuddyModel
  import opened BuddyTheorems
  import opened Buddy
  import opened Lists
  import opened KmallocModel
  import opened KmallocSteps

  const ZERO_SIZE_PTR := -1
  const SLAB_MAX_SIZE := 2048

  /** The least order whose block holds `size`: `size_to_order` */
  method SizeToOrder(size: nat) returns (order: nat)
    ensures size <= Pow(order) && (order > 0 ==> Pow(order - 1) < size)
  {
    order := 0;
    var tmp := size;
    while tmp > 1
      invariant Halved(size, tmp, order)
    {
      HalvedMore(size, tmp, order);
      tmp := tmp / 2;
      order := order + 1;
    }
    HalvedEnd(size, tmp, order);
    if size > Pow(order) { order := order + 1; }
  }

  /** `tmp` is `size` shifted right `order` times, and is not yet zero unless `size` is. */
  ghost predicate Halved(size: nat, tmp: nat, order: nat) {
    tmp * Pow(order) <= size < (tmp + 1) * Pow(order) && (order > 0 ==> tmp > 0)
  }

  lemma HalvedMore(size: nat, tmp: nat, order: nat)
    requires Halved(size, tmp, order) && tmp > 1
    ensures Halved(size, tmp / 2, order + 1)
  {
    var q := tmp / 2;
    assert Pow(order + 1) == 2 * Pow(order);
    assert q * (2 * Pow(order)) == (2 * q) * Pow(order);
    assert (q + 1) * (2 * Pow(order)) == (2 * q + 2) * Pow(order);
    Scale(2 * q, tmp, Pow(order));
    Scale(tmp + 1, 2 * q + 2, Pow(order));
  }

  lemma HalvedEnd(size: nat, tmp: nat, order: nat)
    requires Halved(size, tmp, order) && tmp <= 1
    ensures size < 2 * Pow(order) && (order > 0 ==> Pow(order) <= size && Pow(order - 1) < size)
  {
    Scale(tmp + 1, 2, Pow(order));
    if order > 0 { assert tmp == 1 && Pow(order) == 2 * Pow(order - 1); }
  }

  const WORD := 0x1_0000_0000_0000_0000   // 2^64

  /** `size_to_page_order`: the least page order that holds the size, unless rounding the size up to
  whole pages wraps around; then one page. */
  method SizeToPageOrder(size: nat) returns (order: nat)
    requires 0 < size < WORD
    ensures size <= WORD - PAGE <==> size <= PAGE * Pow(order)
    ensures size <= WORD - PAGE ==> (order > 0 ==> PAGE * Pow(order - 1) < size)
    ensures size > WORD - PAGE ==> order == 0
  {
    var pages := (size + PAGE - 1) % WORD / PAGE;
    order := SizeToOrder(pages);
    if size > WORD - PAGE { assert pages == 0; }
  }

  /** The bytes a caller of `kmalloc` may use: what it asked for, unless rounding that up wraps around. */
  function Usable(size: nat): (n: nat)
    ensures n == size <==> size <= WORD - PAGE
  {
    if size <= WORD - PAGE then size else PAGE
  }

  /** The chunks in use are the buddy system's allocated chunks. */
  ghost predicate Backs(s: Pool, o: Owner, chunks: map<int, nat>) {
    && Good(s, o)
    && (forall h :: h in chunks <==> TakenHead(s, o, h))
    && (forall h <- chunks :: chunks[h] == Ord(s, h))
  }

  lemma BacksGood(s: Pool, o: Owner, chunks: map<int, nat>)
    requires Backs(s, o, chunks)
    ensures Good(s, o)
  {
    hide Good;
  }

  lemma BackedApart(s: Pool, o: Owner, chunks: map<int, nat>)
    requires Backs(s, o, chunks)
    ensures Apart(chunks)
  {
    hide Listed, Coalesced, Floor, Pow;
    forall h <- chunks ensures 0 <= h { assert Head(o, h) && ChunkOk(s, h); }
    forall h <- chunks, g <- chunks | h != g ensures h + Pow(chunks[h]) <= g || g + Pow(chunks[g]) <= h {
      TakenApart(s, o, h, g);
    }
  }

  lemma NothingAllocated(s: Pool, o: Owner, h: Heap)
    requires Good(s, o) && forall p :: InPool(s, p) ==> p in FreePages(s, o)
    requires h == Heap(map[], map[], map[], map[], h.partial, map[])
    requires (forall k :: k in h.partial <==> SlabOrder(k)) && forall k <- h.partial :: h.partial[k] == []
    ensures Backs(s, o, h.chunks) && Inv(h) && NoneWhole(h, NO_SLAB)
  {
    hide Good, Inv;
    AllFree(s, o);
    EmptyHeap(h);
  }

  lemma EmptyHeap(h: Heap)
    requires h == Heap(map[], map[], map[], map[], h.partial, map[])
    requires (forall k :: k in h.partial <==> SlabOrder(k)) && forall k <- h.partial :: h.partial[k] == []
    ensures Inv(h)
  {
    hide SlabOk, IsSlot, Pow, Z;
  }

  lemma AllFree(s: Pool, o: Owner)
    requires Good(s, o) && forall p :: InPool(s, p) ==> p in FreePages(s, o)
    ensures forall h :: !TakenHead(s, o, h)
  {
  }

  /** The pages of an allocated chunk. */
  lemma TakenRange(s: Pool, o: Owner, h: int)
    requires Good(s, o) && TakenHead(s, o, h)
    ensures Ord(s, h) >= 0 && forall p :: p in Block(o, h) <==> h <= p < h + Pow(Ord(s, h))
  {
    hide Floor, Pow, Block, Listed, Coalesced;
    forall p ensures ChunkOk(s, h) && (p in Block(o, h) <==> h <= p < h + Pow(Ord(s, h))) { BlockIsRange(s, o, h, p); }
  }

  lemma TakenApart(s: Pool, o: Owner, h: int, g: int)
    requires Good(s, o) && Head(o, h) && Head(o, g) && h != g
    ensures ChunkOk(s, h) && ChunkOk(s, g) && (h + Pow(Ord(s, h)) <= g || g + Pow(Ord(s, g)) <= h)
  {
    hide Listed, Coalesced, Floor, Pow;
    BlockIsRange(s, o, h, g);
    BlockIsRange(s, o, g, h);
  }

  /** Exactly the pages `a` to `a + n` have left a set of free pages. */
  ghost predicate Took(free: set<int>, free': set<int>, a: int, n: int) {
    forall p :: (p in free' <==> p in free && !(a <= p < a + n)) && (a <= p < a + n ==> p in free)
  }

  /** Page order `k` is the least one that holds `size` bytes. */
  ghost predicate LeastOrder(size: nat, k: nat) {
    size <= PAGE * Pow(k) && (k > 0 ==> PAGE * Pow(k - 1) < size)
  }

  class Allocator {
    const pool: PhysMemPool
    ghost var chunks: map<int, nat>
    var slabs: map<int, Slab>
    var pageSlab: map<int, int>
    var current: map<int, int>
    var partial: map<int, seq<int>>
    ghost var live: map<int, int>

    ghost function View(): Heap reads this {
      Heap(chunks, slabs, pageSlab, current, partial, live)
    }

    ghost predicate Backed()
      reads this, pool, pool.pages, pool.lists, pool.nrFree
    {
      Backs(pool.View(), pool.owner, chunks)
    }

    ghost predicate Valid()
      reads this, pool, pool.pages, pool.lists, pool.nrFree
    {
      Backed() && Inv(View()) && NoneWhole(View(), NO_SLAB)
    }

    /** `init_slab`, on a pool with nothing allocated */
    constructor (pool: PhysMemPool)
      requires pool.Valid() && forall p :: InPool(pool.View(), p) ==> p in pool.FreeSet()
      ensures this.pool == pool && Valid() && live == map[]
    {
      this.pool := pool;
      chunks, slabs, pageSlab, current, live := map[], map[], map[], map[], map[];
      var lists := map[];
      var order := SLAB_MIN_ORDER;
      while order <= SLAB_MAX_ORDER
        invariant SLAB_MIN_ORDER <= order <= SLAB_MAX_ORDER + 1
        invariant (forall k :: k in lists <==> SLAB_MIN_ORDER <= k < order) && forall k <- lists :: lists[k] == []
      {
        lists := lists[order := []];
        order := order + 1;
      }
      partial := lists;
      new;
      hide Good, Inv, FreePages, NoneWhole;
      NothingAllocated(pool.View(), pool.owner, View());
    }

    /** `buddy_get_pages` for the allocator; the chunk is not yet accounted for. */
    method GetChunk(order: nat) returns (found: bool, page: int)
      requires Backed() && Inv(View())
      modifies this`chunks, pool.pages, pool.lists, pool.nrFree, pool`owner
      ensures Backed()
      ensures found <==> order < MAX_ORDER && exists a :: WhollyFree(old(pool.View()), old(pool.FreeSet()), a, order)
      ensures !found ==> chunks == old(chunks) && pool.View() == old(pool.View())
      ensures found ==> page !in old(chunks) && chunks == old(chunks)[page := order] && Apart(chunks)
      ensures found ==> Took(old(pool.FreeSet()), pool.FreeSet(), page, Pow(order))
    {
      hide Good, Inv, WhollyFree, FreePages, Apart, Block, Pow;
      found, page := pool.GetPages(order);
      if found {
        TakenRange(pool.View(), pool.owner, page);
        chunks := chunks[page := order];
        BackedApart(pool.View(), pool.owner, chunks);
      }
    }

    /** `buddy_free_pages` for the allocator */
    method PutChunk(page: int)
      requires Backed() && page in chunks
      modifies this`chunks, pool.pages, pool.lists, pool.nrFree, pool`owner
      ensures Backed() && chunks == old(chunks) - {page}
      ensures forall p :: p in pool.FreeSet() <==> p in old(pool.FreeSet()) || page <= p < page + Pow(old(chunks)[page])
    {
      hide Good, FreePages, Block;
      TakenRange(pool.View(), pool.owner, page);
      pool.FreePagesAt(page);
      chunks := chunks - {page};
    }

    /** `set_or_clear_slab_in_page` */
    method MarkPages(s: int, setting: bool)
      modifies `pageSlab
      ensures pageSlab == if setting then Marked(old(pageSlab), s, SLAB_PAGES)
        else Unmarked(old(pageSlab), s, SLAB_PAGES)
    {
      var i := 0;
      while i < SLAB_PAGES
        invariant 0 <= i <= SLAB_PAGES
        invariant pageSlab == if setting then Marked(old(pageSlab), s, i) else Unmarked(old(pageSlab), s, i)
      {
        if setting { pageSlab := pageSlab[s + i := s]; } else { pageSlab := pageSlab - {s + i}; }
        i := i + 1;
      }
    }

    /** The loop of `init_slab_cache` that threads the free list. */
    method ThreadSlots(s: int, k: int) returns (free: seq<int>)
      requires SlabOrder(k)
      ensures Total(k) > 1 && free == Fresh(s, k, Total(k))
    {
      hide Total, Z;
      SlotSizes(k);
      var slot := s * PAGE + Z(k);
      free := [slot];
      var i := 0;
      while i < Total(k) - 1
        invariant 0 <= i <= Total(k) - 1 && slot == SlotAt(s, k, i + 1)
        invariant free == Fresh(s, k, i + 1)
      {
        slot := slot + Z(k);
        assert (i + 2) * Z(k) == (i + 1) * Z(k) + Z(k);
        free := free + [slot];
        i := i + 1;
      }
    }

    /** `init_slab_cache` in the chunk at `page`, made the current slab of its order */
    method FillHeader(page: int, k: int)
      requires SlabOrder(k)
      modifies `slabs, `pageSlab, `current
      ensures Total(k) >= 0 && slabs == old(slabs)[page := Slab(k, Fresh(page, k, Total(k)), Total(k), Total(k))]
      ensures pageSlab == Marked(old(pageSlab), page, SLAB_PAGES) && current == old(current)[k := page]
    {
      hide Fresh, Marked, Total;
      MarkPages(page, true);
      var free := ThreadSlots(page, k);
      slabs := slabs[page := Slab(k, free, SLAB_BYTES / Z(k) - 1, SLAB_BYTES / Z(k) - 1)];
      current := current[k := page];
      TotalIs(k);
    }

    /** The same with a chunk from the buddy system */
    method InitSlab(k: int) returns (ok: bool)
      requires Backed() && Inv(View()) && NoneWhole(View(), NO_SLAB) && SlabOrder(k) && k !in current
      modifies this, pool.pages, pool.lists, pool.nrFree, pool`owner
      ensures Backed() && Inv(View()) && live == old(live)
      ensures ok <==> SlabRoom(old(pool.View()), old(pool.FreeSet()))
      ensures !ok ==> View() == old(View()) && pool.View() == old(pool.View())
      ensures ok ==> k in current && Took(old(pool.FreeSet()), pool.FreeSet(), current[k], SLAB_PAGES)
      ensures ok ==> k in current && NoneWhole(View(), current[k])
      ensures ok ==>
        current[k] !in old(chunks) && View() == AddSlab(old(View()), current[k], k) && FreshSlab(View(), current[k], k)
    {
      hide Inv, WhollyFree, FreePages, Backs, Apart, Fresh, Marked, Total, Good, FreshSlab, NoneWhole, Took, Pow, Z;
      ghost var h := View();
      SlabPow();
      var page;
      ok, page := GetChunk(SLAB_PAGE_ORDER);
      if !ok { return; }
      FillHeader(page, k);
      assert View() == AddSlab(h, page, k);
      NoneWholeAny(h, page);
      AddSlabKeeps(h, page, k);
      AddSlabFresh(h, page, k);
    }

    /** `choose_new_current_slab` */
    method ChooseCurrent(k: int)
      requires k in partial
      modifies `current, `partial
      ensures View() == Choose(old(View()), k)
    {
      if partial[k] == [] {
        current := current - {k};
      } else {
        current := current[k := partial[k][0]];
        partial := partial[k := partial[k][1..]];
      }
    }

    /** The second half of `alloc_in_slab_impl`: a slot from the current slab. */
    method TakeSlot(k: int, n: nat) returns (addr: int)
      requires Backed() && Inv(View()) && k in current && NoneWhole(View(), current[k]) && 0 < n <= Z(k)
      modifies this
      ensures Valid() && addr !in old(live) && live == old(live)[addr := n] && chunks == old(chunks)
      ensures old(current)[k] in old(slabs) && old(slabs)[old(current)[k]].free != [] && k in old(partial)
      ensures View() == Take(old(View()), k, n) && addr == old(slabs)[old(current)[k]].free[0]
      ensures old(current)[k] in slabs && SlotOf(slabs, old(current)[k], k, addr)
    {
      hide Inv, NoneWhole, Backs, Z, Choose;
      ghost var h := View();
      TakeKeeps(h, k, n);
      TakeMeans(h, k, n);
      FirstCount(h, k);
      var s := current[k];
      addr := slabs[s].free[0];
      slabs := slabs[s := slabs[s].(free := slabs[s].free[1..], count := slabs[s].count - 1)];
      live := live[addr := n];
      if slabs[s].count == 0 { ChooseCurrent(k); }
      assert View() == Take(h, k, n);
      ChooseOthers(h.(slabs := slabs, live := live), k);
    }

    /** `alloc_in_slab` */
    method AllocInSlab(n: nat) returns (ok: bool, addr: int)
      requires Valid() && 0 < n <= SLAB_MAX_SIZE
      modifies this, pool.pages, pool.lists, pool.nrFree, pool`owner
      ensures Valid()
      ensures ok <==> SlotOrder(n) in old(current) || SlabRoom(old(pool.View()), old(pool.FreeSet()))
      ensures ok ==> addr !in old(live) && live == old(live)[addr := n]
      ensures ok ==> exists s <- slabs :: SlotOf(slabs, s, SlotOrder(n), addr)
      ensures !ok || SlotOrder(n) in old(current) ==> pool.View() == old(pool.View())
      ensures ok && SlotOrder(n) !in old(current) ==>
        exists a :: Took(old(pool.FreeSet()), pool.FreeSet(), a, SLAB_PAGES)
      ensures !ok ==> View() == old(View())
    {
      hide Inv, NoneWhole, Backs, WhollyFree, FreePages, Good, SlotOrder, SlabRoom, Took, Take, SlotOf;
      var order: int := SizeToOrder(n);
      if order < SLAB_MIN_ORDER { order := SLAB_MIN_ORDER; }
      SlabOrderOf(n, order);
      BacksGood(pool.View(), pool.owner, chunks);
      ghost var free := pool.FreeSet();
      ghost var page := 0;
      if order !in current {
        ok := InitSlab(order);
        if !ok { return false, 0; }
        page := current[order];
        BacksGood(pool.View(), pool.owner, chunks);
      } else {
        NoneWholeAny(View(), current[order]);
      }
      addr := TakeSlot(order, n);
      assert order !in old(current) ==> Took(free, pool.FreeSet(), page, SLAB_PAGES);
      return true, addr;
    }

    /** `free_in_slab` */
    method FreeInSlab(addr: int)
      requires Valid() && addr in live && addr / PAGE in pageSlab
      modifies this, pool.pages, pool.lists, pool.nrFree, pool`owner
      ensures Valid() && live == old(live) - {addr}
      ensures forall p :: p in pool.FreeSet() <==> p in old(pool.FreeSet()) || GoesBack(old(View()), addr, p)
      ensures var s := old(pageSlab)[addr / PAGE];
        s in old(slabs) && old(slabs)[s].order in old(partial) && View() == Freed(old(View()), s, addr)
    {
      hide Inv, NoneWhole, Backs, Good, FreePages, ReturnSlab;
      ghost var h := View();
      Dispatch(h, addr);
      var s := pageSlab[addr / PAGE];
      PutBackKeeps(h, s, addr);
      var k := slabs[s].order;
      if slabs[s].count == 0 { partial := partial[k := partial[k] + [s]]; }
      slabs := slabs[s := slabs[s].(free := [addr] + slabs[s].free, count := slabs[s].count + 1)];
      live := live - {addr};
      assert View() == PutBack(h, s, addr);
      if slabs[s].count == slabs[s].total {
        ReturnSlabToBuddy(s);
      } else {
        NoneWholeNow(View(), s);
      }
    }

    /** `try_return_slab_to_buddy` for a wholly free slab */
    method ReturnSlabToBuddy(s: int)
      requires Backed() && Inv(View()) && NoneWhole(View(), s)
      requires s in slabs && slabs[s].count == slabs[s].total
      modifies this, pool.pages, pool.lists, pool.nrFree, pool`owner
      ensures Valid() && live == old(live)
      ensures old(slabs)[s].order in old(partial) && View() == ReturnSlab(old(View()), s)
      ensures forall p :: p in pool.FreeSet() <==> p in old(pool.FreeSet()) || InSlab(s, p)
    {
      hide Inv, NoneWhole, Backs, Good, FreePages, Without, Unmarked;
      ghost var h := View();
      ReturnKeeps(h, s);
      SlabIsChunk(h, s);
      assert Pow(SLAB_PAGE_ORDER) == SLAB_PAGES;
      var k := slabs[s].order;
      if k in current && current[k] == s {
        ChooseCurrent(k);
      } else {
        partial := partial[k := Without(partial[k], s)];
      }
      MarkPages(s, false);
      slabs := slabs - {s};
      PutChunk(s);
      assert View() == ReturnSlab(h, s);
    }

    /** `_get_pages` */
    method AllocPages(order: nat, n: nat) returns (ok: bool, addr: int)
      requires Valid() && 0 < n <= PAGE * Pow(order)
      modifies this, pool.pages, pool.lists, pool.nrFree, pool`owner
      ensures Valid()
      ensures ok <==> order < MAX_ORDER && exists a :: WhollyFree(old(pool.View()), old(pool.FreeSet()), a, order)
      ensures ok ==> addr !in old(live) && live == old(live)[addr := n]
      ensures ok ==> Took(old(pool.FreeSet()), pool.FreeSet(), addr / PAGE, Pow(order))
      ensures !ok ==> View() == old(View()) && pool.View() == old(pool.View())
    {
      hide Inv, NoneWhole, Backs, Good, FreePages, WhollyFree, Apart, Pow, Took;
      ghost var h := View();
      var page;
      ok, page := GetChunk(order);
      if !ok { return false, 0; }
      NewAddress(h, page, order);
      AddBigKeeps(h, page, order, n);
      addr := page * PAGE;
      live := live[addr := n];
      assert View() == AddBig(h, page, order, n);
      SameSlabs(h, View());
    }

    /** `_kmalloc`: a new block of `Usable(size)` bytes. */
    method Alloc(size: nat) returns (ok: bool, addr: int)
      requires Valid() && size < WORD
      modifies this, pool.pages, pool.lists, pool.nrFree, pool`owner
      ensures Valid()
      ensures size == 0 ==> ok && addr == ZERO_SIZE_PTR
      ensures size > 0 && ok ==> addr !in old(live) && live == old(live)[addr := Usable(size)]
      ensures size == 0 || !ok ==> View() == old(View()) && pool.View() == old(pool.View())
      ensures 0 < size <= SLAB_MAX_SIZE ==>
        (ok <==> SlotOrder(size) in old(current) || SlabRoom(old(pool.View()), old(pool.FreeSet())))
      ensures size > SLAB_MAX_SIZE ==> (ok <==> Fits(old(pool.View()), old(pool.FreeSet()), Usable(size)))
      ensures 0 < size <= SLAB_MAX_SIZE && ok ==> exists s <- slabs :: SlotOf(slabs, s, SlotOrder(size), addr)
      ensures 0 < size <= SLAB_MAX_SIZE && SlotOrder(size) in old(current) ==> pool.View() == old(pool.View())
      ensures 0 < size <= SLAB_MAX_SIZE && ok && SlotOrder(size) !in old(current) ==>
        exists a :: Took(old(pool.FreeSet()), pool.FreeSet(), a, SLAB_PAGES)
      ensures size > SLAB_MAX_SIZE && ok ==> exists k: nat ::
        LeastOrder(Usable(size), k) && Took(old(pool.FreeSet()), pool.FreeSet(), addr / PAGE, Pow(k))
    {
      hide Inv, NoneWhole, Backs, Good, FreePages, WhollyFree, SlotOrder, SlabRoom, Fits, Took, SlotOf;
      if size == 0 { return true, ZERO_SIZE_PTR; }
      if size <= SLAB_MAX_SIZE {
        ok, addr := AllocInSlab(size);
      } else {
        var order := 0;
        if size > PAGE { order := SizeToPageOrder(size); }
        BacksGood(pool.View(), pool.owner, chunks);
        FitsAtLeast(pool.View(), pool.FreeSet(), Usable(size), order);
        assert LeastOrder(Usable(size), order);
        ok, addr := AllocPages(order, Usable(size));
      }
    }

    /** `_kfree` */
    method Free(ptr: int)
      requires Valid() && (ptr == ZERO_SIZE_PTR || ptr in live)
      modifies this, pool.pages, pool.lists, pool.nrFree, pool`owner
      ensures Valid() && live == old(live) - {ptr}
      ensures forall p :: p in pool.FreeSet() <==> p in old(pool.FreeSet()) || GoesBack(old(View()), ptr, p)
    {
      hide Inv, NoneWhole, Backs, Good, FreePages;
      ghost var h := View();
      if ptr == ZERO_SIZE_PTR {
        NoMinusOne(h);
        return;
      }
      Dispatch(h, ptr);
      if ptr / PAGE in pageSlab {
        FreeInSlab(ptr);
      } else {
        DropBigKeeps(h, ptr / PAGE);
        PutChunk(ptr / PAGE);
        live := live - {ptr};
        assert View() == DropBig(h, ptr / PAGE);
        SameSlabs(h, View());
      }
    }

    /** `get_free_slot_number`: the slots counted one by one agree with the headers. */
    method FreeSlotNumber(k: int) returns (counted: int, recorded: int)
      requires Valid() && SlabOrder(k)
      ensures counted == recorded == FreeSlots(View(), k)
    {
      hide NoneWhole, Backs, Apart, Lives;
      counted, recorded := 0, 0;
      if k in current {
        counted := CountList(slabs[current[k]].free);
        recorded := slabs[current[k]].count;
        assert SlabOk(current[k], slabs[current[k]]);
      }
      var i := 0;
      while i < |partial[k]|
        invariant 0 <= i <= |partial[k]|
        invariant counted == recorded
          == (if k in current then |slabs[current[k]].free| else 0) + FreeIn(View(), partial[k][..i])
      {
        var s := partial[k][i];
        assert s in partial[k] && SlabOk(s, slabs[s]);
        var c := CountList(slabs[s].free);
        FreeInMore(View(), partial[k], i);
        counted, recorded := counted + c, recorded + slabs[s].count;
        i := i + 1;
      }
      assert partial[k][..i] == partial[k];
    }

    /** Walks one free list. */
    method CountList(l: seq<int>) returns (n: nat)
      ensures n == |l|
    {
      n := 0;
      var rest := l;
      while rest != []
        invariant n + |rest| == |l|
      {
        n, rest := n + 1, rest[1..];
      }
    }
  }

  /** Free slots in the listed slabs. */
  ghost function FreeIn(h: Heap, l: seq<int>): int {
    if l == [] then 0
    else FreeIn(h, l[..|l| - 1]) + if l[|l| - 1] in h.slabs then |h.slabs[l[|l| - 1]].free| else 0
  }

  /** Free slots of order `k` that an allocation can reach. */
  ghost function FreeSlots(h: Heap, k: int): int
    requires k in h.partial
  {
    (if k in h.current && h.current[k] in h.slabs then |h.slabs[h.current[k]].free| else 0) + FreeIn(h, h.partial[k])
  }

  lemma FreeInMore(h: Heap, l: seq<int>, i: nat)
    requires i < |l| && l[i] in h.slabs
    ensures FreeIn(h, l[..i + 1]) == FreeIn(h, l[..i]) + |h.slabs[l[i]].free|
  {
    assert l[..i + 1][..i] == l[..i];
  }

  lemma TotalIs(k: int)
    ensures Total(k) == SLAB_BYTES / Z(k) - 1
  {
  }

  lemma FirstCount(h: Heap, k: int)
    requires Inv(h) && k in h.current
    ensures h.current[k] in h.slabs && h.slabs[h.current[k]].order == k && SlabOrder(k) && k in h.partial
    ensures forall a <- h.slabs[h.current[k]].free :: IsSlot(h.current[k], k, a)
  {
    hide IsSlot;
    assert SlabOk(h.current[k], h.slabs[h.current[k]]);
  }

  lemma ChooseOthers(h: Heap, k: int)
    requires k in h.partial
    ensures Choose(h, k).live == h.live && Choose(h, k).chunks == h.chunks && Choose(h, k).slabs == h.slabs
  {
  }

  lemma SlabOrderOf(n: nat, order: int)
    requires 0 < n <= SLAB_MAX_SIZE && order >= SLAB_MIN_ORDER && n <= Pow(order)
    requires order > SLAB_MIN_ORDER ==> Pow(order - 1) < n
    ensures SlabOrder(order) && n <= Z(order) && order == SlotOrder(n)
  {
    if order > SLAB_MAX_ORDER {
      PowGrows(SLAB_MAX_ORDER, order - 1);
      SlotSizes(SLAB_MAX_ORDER);
    } else {
      SlotSizes(order);
      if order > SLAB_MIN_ORDER { SlotSizes(order - 1); }
    }
  }

  /** Address `a` is a slot of the slab at page `s`, whose slots are of order `k`. */
  ghost predicate SlotOf(slabs: map<int, Slab>, s: int, k: int, a: int) {
    s in slabs && slabs[s].order == k && IsSlot(s, k, a)
  }

  /** The slab order that serves `n` bytes: the least one whose slots are large enough. */
  function SlotOrder(n: nat): (k: int)
    ensures SlabOrder(k) && (n <= SLAB_MAX_SIZE ==> n <= Z(k)) && (k > SLAB_MIN_ORDER ==> Z(k - 1) < n)
  {
    if n <= 32 then 5 else if n <= 64 then 6 else if n <= 128 then 7 else if n <= 256 then 8
    else if n <= 512 then 9 else if n <= 1024 then 10 else 11
  }

  /** Page `p` goes back to the buddy system when `a` is freed: it is in the chunk that was handed out, or in the
  slab if no other of its slots is in use. */
  ghost predicate GoesBack(h: Heap, a: int, p: int) {
    && a in h.live
    && if a / PAGE in h.pageSlab then
         var s := h.pageSlab[a / PAGE];
         s in h.slabs && h.slabs[s].count + 1 == h.slabs[s].total && InSlab(s, p)
       else a / PAGE in h.chunks && a / PAGE <= p < a / PAGE + Pow(h.chunks[a / PAGE])
  }

  /** There is room for a new slab. */
  ghost predicate SlabRoom(s: Pool, free: set<int>) { exists a :: WhollyFree(s, free, a, SLAB_PAGE_ORDER) }

  /** Some naturally aligned free block is large enough. */
  ghost predicate Fits(s: Pool, free: set<int>, size: nat) {
    exists a, k: nat :: size <= PAGE * Pow(k) && WhollyFree(s, free, a, k)
  }

  /** It is enough to look at the least order that holds `size`. */
  lemma FitsAtLeast(s: Pool, free: set<int>, size: nat, order: nat)
    requires size <= PAGE * Pow(order) && (order > 0 ==> PAGE * Pow(order - 1) < size)
    ensures Fits(s, free, size) <==> order < MAX_ORDER && exists a :: WhollyFree(s, free, a, order)
  {
    if order < MAX_ORDER && exists a :: WhollyFree(s, free, a, order) {
      var a :| WhollyFree(s, free, a, order);
    }
    if Fits(s, free, size) {
      var a, k: nat :| size <= PAGE * Pow(k) && WhollyFree(s, free, a, k);
      if k < order { PowGrows(k, order - 1); } else { SmallerFree(s, free, a, k, order); }
    }
  }

  lemma SlabPow()
    ensures Pow(SLAB_PAGE_ORDER) == SLAB_PAGES
  {
  }

  lemma NoneWholeAny(h: Heap, s: int)
    requires Inv(h) && NoneWhole(h, NO_SLAB)
    ensures NoneWhole(h, s)
  {
    SlabPages(h);
  }

  lemma NoneWholeNow(h: Heap, s: int)
    requires NoneWhole(h, s) && s in h.slabs && h.slabs[s].count < h.slabs[s].total
    ensures NoneWhole(h, NO_SLAB)
  {
  }

  lemma SlabIsChunk(h: Heap, s: int)
    requires Inv(h) && s in h.slabs
    ensures s in h.chunks && h.chunks[s] == SLAB_PAGE_ORDER
  {
  }

  lemma NewAddress(h: Heap, p: int, o: nat)
    requires Inv(h) && p !in h.chunks && Apart(h.chunks[p := o])
    ensures p * PAGE !in h.live
  {
    hide Ranked, Apart;
    if p * PAGE in h.live {
      Dispatch(h, p * PAGE);
      if p in h.pageSlab { NewHeadOff(h, p, o, h.pageSlab[p]); }
    }
  }

  lemma SameSlabs(h: Heap, t: Heap)
    requires NoneWhole(h, NO_SLAB) && t.slabs == h.slabs
    ensures NoneWhole(t, NO_SLAB)
  {
  }

  lemma NoMinusOne(h: Heap)
    requires Inv(h)
    ensures ZERO_SIZE_PTR !in h.live
  {
    if ZERO_SIZE_PTR in h.live {
      var c := Holder(h, ZERO_SIZE_PTR);
    }
  }
}
