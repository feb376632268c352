/** `kernel/mm/buddy.c`: one physical memory pool. */
module Buddy {
  import opened BuddyBits
  import opened BuddyModel
  import opened Lists
  import opened BuddyTheorems

  const PAGE_SIZE := 0x1000
  const PAGE_SIZE_ORDER := 12

  /** `a << j` */
  ghost function Shift(a: int, j: nat): int {
    if j == 0 then a else 2 * Shift(a, j - 1)
  }

  lemma {:induction false} FlipShift(a: int, k: nat, j: nat)
    requires a >= 0
    ensures Shift(a, j) >= 0 && Flip(Shift(a, j), k + j) == Shift(Flip(a, k), j)
    decreases j
  {
    if j > 0 {
      FlipShift(a, k, j - 1);
      var x := Shift(a, j - 1);
      assert (2 * x) / 2 == x && (2 * x) % 2 == 0;
    }
  }

  lemma {:induction false} PowShift(k: nat, j: nat)
    ensures Pow(k + j) == Shift(Pow(k), j)
    decreases j
  {
    if j > 0 { PowShift(k, j - 1); }
  }

  lemma ShiftPage(a: int)
    ensures Shift(a, 12) == PAGE_SIZE * a
  {
    assert Shift(a, 1) == 2 * a;
    assert Shift(a, 2) == 4 * a;
    assert Shift(a, 4) == 16 * a;
    assert Shift(a, 6) == 64 * a;
    assert Shift(a, 8) == 256 * a;
    assert Shift(a, 10) == 1024 * a;
  }

  /** On page-aligned addresses the XOR works on page numbers. */
  lemma PageFlip(a: int, k: nat)
    requires a >= 0
    ensures Flip(PAGE_SIZE * a, k + PAGE_SIZE_ORDER) == PAGE_SIZE * Flip(a, k)
    ensures Pow(k + PAGE_SIZE_ORDER) == PAGE_SIZE * Pow(k)
  {
    hide Flip, Pow, Shift;
    FlipShift(a, k, 12);
    PowShift(k, 12);
    ShiftPage(a);
    ShiftPage(Flip(a, k));
    ShiftPage(Pow(k));
  }

  class PhysMemPool {
    /** `pool_start_addr`, in pages */
    const base: int
    /** `page_metadata` */
    var pages: array<Page>
    /** `free_lists[k].free_list`, first element first */
    var lists: array<seq<int>>
    /** `free_lists[k].nr_free` */
    var nrFree: array<int>
    ghost var owner: Owner

    ghost function View(): Pool
      reads this, pages, lists, nrFree
    {
      Pool(base, pages[..], lists[..], nrFree[..])
    }

    ghost predicate Valid()
      reads this, pages, lists, nrFree
    {
      Good(View(), owner)
    }

    ghost function FreeSet(): set<int>
      requires Valid()
      reads this, pages, lists, nrFree
    {
      FreePages(View(), owner)
    }

    /** `init_buddy`: every page starts as an allocated chunk of its own and is then freed. */
    constructor (base: int, n: nat)
      requires base >= 0
      ensures this.base == base && Valid() && |View().pages| == n
      ensures fresh(pages) && fresh(lists) && fresh(nrFree)
      ensures forall p :: p in FreeSet() <==> base <= p < base + n
    {
      this.base := base;
      pages := new Page[n](_ => Page(true, 0));
      lists := new seq<int>[MAX_ORDER](_ => []);
      nrFree := new int[MAX_ORDER](_ => 0);
      owner := Singles(base, n);
      new;
      InitGood(View(), owner);
      FreeAll();
    }

    /** The second loop of `init_buddy`: frees the pages one by one. */
    method FreeAll()
      requires Valid() && Shaped(View(), owner) && FreeSet() == {}
      requires forall p :: InPool(View(), p) ==> TakenHead(View(), owner, p) && Ord(View(), p) == 0
      modifies pages, lists, nrFree, `owner
      ensures Valid() && |View().pages| == old(|View().pages|)
      ensures forall p :: p in FreeSet() <==> InPool(View(), p)
    {
      hide Good, FreePages, Block, Shaped, Floor, Flip, Pow;
      var i := 0;
      while i < pages.Length
        invariant 0 <= i <= pages.Length && Valid() && Shaped(View(), owner)
        invariant forall p :: p in FreeSet() <==> base <= p < base + i
        invariant forall p :: base + i <= p < base + pages.Length ==> TakenHead(View(), owner, p) && Ord(View(), p) == 0
      {
        assert TakenHead(View(), owner, base + i);
        SinglePage(View(), owner, base + i);
        FreePagesAt(base + i);
        GoodChunks(View(), owner);
        i := i + 1;
      }
    }

    /** Writes the metadata of one page. */
    method SetPage(p: int, m: Page)
      requires InPool(View(), p)
      modifies pages
      ensures View() == old(View()).(pages := old(View()).pages[p - base := m])
    {
      pages[p - base] := m;
    }

    /** `list_add` and `nr_free += 1` */
    method ListAdd(k: int, a: int)
      requires 0 <= k < lists.Length == nrFree.Length
      modifies lists, nrFree
      ensures View() == Enlist(old(View()), k, a)
    {
      lists[k] := [a] + lists[k];
      nrFree[k] := nrFree[k] + 1;
    }

    /** `list_del` and `nr_free -= 1` */
    method ListDel(k: int, a: int)
      requires 0 <= k < lists.Length == nrFree.Length
      modifies lists, nrFree
      ensures View() == Unlist(old(View()), k, a)
    {
      lists[k] := Without(lists[k], a);
      nrFree[k] := nrFree[k] - 1;
    }

    /** `get_buddy_chunk`: the buddy's page number, or nothing when it is outside the pool. */
    method GetBuddyChunk(c: int) returns (found: bool, b: int)
      requires InPool(View(), c) && c >= 0 && base >= 0 && 0 <= Ord(View(), c)
      ensures var k := Ord(View(), c);
        && found == (base <= Flip(c, k) && Flip(c, k) + Pow(k) <= base + |View().pages|)
        && (found ==> b == Flip(c, k) && InPool(View(), b))
    {
      var order := pages[c - base].order;
      var chunkAddr := c * PAGE_SIZE;
      var buddyAddr := Flip(chunkAddr, order + PAGE_SIZE_ORDER);
      PageFlip(c, order);
      if buddyAddr < base * PAGE_SIZE
        || buddyAddr + Pow(order) * PAGE_SIZE > (base + pages.Length) * PAGE_SIZE
      {
        return false, 0;
      }
      return true, buddyAddr / PAGE_SIZE;
    }

    /** The metadata and list updates of one round of `merge_chunk`. */
    method MergeOnce(c: int, b: int)
      requires Mid(View(), owner, c) && c >= 0 && Mergeable(View(), c)
      requires b == Flip(c, Ord(View(), c))
      modifies pages, lists, nrFree, `owner
      ensures View() == MergeStep(old(View()), c)
      ensures owner == MergedOwner(old(View()), old(owner), c)
    {
      hide Floor, Flip, Pow, Mid, Claim;
      ghost var s := View();
      MidChunk(s, owner, c);
      owner := MergedOwner(s, owner, c);
      var k := pages[c - base].order;
      ListDel(k, b);
      SetPage(b, pages[b - base].(order := k + 1));
      SetPage(c, pages[c - base].(order := k + 1));
    }

    /** `merge_chunk` */
    method MergeChunk(c: int) returns (r: int)
      requires Mid(View(), owner, c)
      modifies pages, lists, nrFree, `owner
      ensures Mid(View(), owner, r) && ChunkOk(View(), r) && !Mergeable(View(), r)
      ensures FreePages(View(), owner) == old(FreePages(View(), owner))
      ensures Shaped(old(View()), old(owner)) && SameTaken(old(View()), old(owner), View(), owner)
      ensures |View().pages| == old(|View().pages|)
      ensures forall p <- old(owner) :: old(owner)[p] == c ==> p in owner && owner[p] == r
      decreases MAX_ORDER - Ord(View(), c)
    {
      hide Floor, Flip, Pow, Mid, FreePages, SameTaken, MergedOwner;
      MidChunk(View(), owner, c);
      SameTakenRefl(View(), owner);
      var k := pages[c - base].order;
      if k == MAX_ORDER - 1 {
        return c;
      }
      var found, b := GetBuddyChunk(c);
      if !found || pages[b - base].taken || pages[b - base].order != k {
        return c;
      }
      ghost var s, o := View(), owner;
      MergeMid(s, o, c);
      MergeOnce(c, b);
      MergedPages(s, o, c);
      r := MergeChunk(if c > b then b else c);
      MidChunk(View(), owner, r);
      SameTakenTrans(s, o, MergeStep(s, c), MergedOwner(s, o, c), View(), owner);
    }

    /** The updates of one round of `split_chunk`. */
    method SplitOnce(c: int)
      requires Valid() && TakenHead(View(), owner, c) && Ord(View(), c) >= 1
      modifies pages, lists, nrFree, `owner
      ensures ChunkOk(old(View()), c) && InPool(old(View()), Flip(c, old(Ord(View(), c)) - 1))
      ensures View() == SplitStep(old(View()), c)
      ensures owner == SplitOwner(old(View()), old(owner), c)
    {
      hide Floor, Flip, Pow, Good, Claim;
      ghost var s := View();
      GoodChunks(s, owner);
      SplitPair(s, owner, c);
      var k := pages[c - base].order - 1;
      owner := SplitOwner(s, owner, c);
      SetPage(c, pages[c - base].(order := k));
      var found, b := GetBuddyChunk(c);
      SetPage(b, Page(false, k));
      ListAdd(k, b);
    }

    /** `split_chunk`: the lower part of the chunk, of exactly the wanted order, stays allocated. */
    method SplitChunk(order: int, c: int)
      requires Valid() && TakenHead(View(), owner, c) && 0 <= order <= Ord(View(), c)
      modifies pages, lists, nrFree, `owner
      ensures Valid() && TakenHead(View(), owner, c) && Ord(View(), c) == order
      ensures FreeSet() + Block(owner, c) == old(FreeSet()) + old(Block(owner, c))
      ensures Block(owner, c) <= old(Block(owner, c))
      ensures |View().pages| == old(|View().pages|)
      ensures Shaped(old(View()), old(owner)) && OthersSame(old(View()), old(owner), View(), owner, c)
      decreases Ord(View(), c)
    {
      hide Floor, Flip, Pow, Good, FreePages, Block, OthersSame, SplitStep, SplitOwner;
      GoodChunks(View(), owner);
      OthersRefl(View(), owner, c);
      if pages[c - base].order == order {
        return;
      }
      ghost var s, o := View(), owner;
      SplitGood(s, o, c);
      SplitOthers(s, o, c);
      SplitOnce(c);
      SplitChunk(order, c);
      GoodChunks(View(), owner);
      OthersTrans(s, o, SplitStep(s, c), SplitOwner(s, o, c), View(), owner, c);
    }

    /** `buddy_get_pages` */
    method GetPages(order: int) returns (found: bool, page: int)
      requires Valid() && order >= 0
      modifies pages, lists, nrFree, `owner
      ensures Valid() && |View().pages| == old(|View().pages|)
      ensures found <==> order < MAX_ORDER && exists a :: WhollyFree(old(View()), old(FreeSet()), a, order)
      ensures !found ==> View() == old(View()) && owner == old(owner)
      ensures found ==> TakenHead(View(), owner, page) && Ord(View(), page) == order
      ensures found ==> FirstFit(old(View()), order, page)
      ensures found ==> Block(owner, page) <= old(FreeSet()) && FreeSet() == old(FreeSet()) - Block(owner, page)
      ensures Shaped(old(View()), old(owner))
      ensures found ==>
        !TakenHead(old(View()), old(owner), page) && OthersSame(old(View()), old(owner), View(), owner, page)
    {
      hide Floor, Flip, Pow, Good, FreePages, Block, OthersSame, WhollyFree;
      GoodChunks(View(), owner);
      if order >= MAX_ORDER {
        return false, 0;
      }
      ghost var s, o := View(), owner;
      Completeness(s, o, order);
      var cur := order;
      while cur < MAX_ORDER && lists[cur] == []
        invariant order <= cur <= MAX_ORDER
        invariant forall j :: order <= j < cur ==> s.lists[j] == []
      {
        cur := cur + 1;
      }
      if cur == MAX_ORDER {
        return false, 0;
      }
      page := lists[cur][0];
      found := true;
      assert order <= cur < MAX_ORDER && s.lists[cur] != [] && FirstFit(s, order, page);
      ghost var a :| WhollyFree(s, FreePages(s, o), a, order);
      assert WhollyFree(old(View()), old(FreeSet()), a, order);
      TakeGood(s, o, cur);
      TakeOthers(s, o, cur);
      ListDel(cur, page);
      SetPage(page, pages[page - base].(taken := true));
      ghost var t := View();
      assert t == TakeFront(s, cur);
      SplitChunk(order, page);
      GoodChunks(View(), owner);
      OthersTrans(s, o, t, o, View(), owner, page);
      TakenNotFree(View(), owner, page);
      GetSets(FreePages(s, o), FreePages(View(), owner), Block(o, page), Block(owner, page));
    }

    /** `buddy_free_pages` */
    method FreePagesAt(page: int)
      requires Valid() && TakenHead(View(), owner, page)
      modifies pages, lists, nrFree, `owner
      ensures Valid() && |View().pages| == old(|View().pages|)
      ensures FreeSet() == old(FreeSet()) + old(Block(owner, page))
      ensures Shaped(old(View()), old(owner))
      ensures forall h :: TakenHead(View(), owner, h) <==> TakenHead(old(View()), old(owner), h) && h != page
      ensures forall h :: TakenHead(View(), owner, h) ==> Ord(View(), h) == Ord(old(View()), h)
      ensures page in owner && ListedFirst(View(), owner[page])
    {
      hide Floor, Flip, Pow, Good, Mid, FreePages, Block, SameTaken, Mergeable;
      ghost var s, o := View(), owner;
      GoodChunks(s, o);
      FreeMid(s, o, page);
      SetPage(page, pages[page - base].(taken := false));
      ghost var t := View();
      MidChunk(t, o, page);
      var c := MergeChunk(page);
      ghost var u, q := View(), owner;
      MidChunk(u, q, c);
      PutGood(u, q, c);
      var k := pages[c - base].order;
      ListAdd(k, c);
      assert View().lists[k][0] == c == owner[page] && ListedFirst(View(), c);
      GoodChunks(View(), owner);
      SameTakenTrans(t, o, u, q, View(), owner);
      SameTakenAt(t, o, View(), owner);
    }

    /** An allocation followed by its release restores every free list, up to the order in it. */
    method GetThenFree(order: int) returns (found: bool)
      requires Valid() && order >= 0
      modifies pages, lists, nrFree, `owner
      ensures Valid() && FreeSet() == old(FreeSet())
      ensures forall h, k :: FreeHead(View(), owner, h, k) <==> FreeHead(old(View()), old(owner), h, k)
      ensures forall k :: 0 <= k < MAX_ORDER ==>
        multiset(View().lists[k]) == multiset(old(View()).lists[k]) && View().nrFree[k] == old(View()).nrFree[k]
    {
      hide Good, FreePages, FreeHead, Block, OthersSame, WhollyFree, FirstFit, ListedFirst, TakenHead;
      ghost var s, o := View(), owner;
      GoodChunks(s, o);
      var page;
      found, page := GetPages(order);
      GoodChunks(View(), owner);
      if !found { return; }
      ghost var t, r, b := View(), owner, Block(owner, page);
      FreePagesAt(page);
      AllocateThenFree(s, o, t, r, View(), owner, b);
    }

    /** `get_free_mem_size_from_buddy` */
    method FreeMemSize() returns (total: int)
      requires Valid()
      ensures total == PAGE_SIZE * |FreeSet()|
    {
      GoodChunks(View(), owner);
      FreeAccounting(View(), owner);
      total := 0;
      var order := 0;
      while order < MAX_ORDER
        invariant 0 <= order <= MAX_ORDER == nrFree.Length
        invariant total == PAGE_SIZE * TotalBelow(View(), order)
      {
        var size := PAGE_SIZE * Pow(order);
        SizeStep(nrFree[order], Pow(order), TotalBelow(View(), order));
        total := total + nrFree[order] * size;
        order := order + 1;
      }
    }
  }

  lemma SizeStep(n: int, x: int, t: int)
    ensures PAGE_SIZE * t + n * (PAGE_SIZE * x) == PAGE_SIZE * (t + n * x)
  {
    assert n * (PAGE_SIZE * x) == PAGE_SIZE * (n * x);
  }

  /** Every page a chunk of its own. */
  ghost function Singles(base: int, n: nat): (o: Owner)
    ensures forall p :: p in o <==> base <= p < base + n
    ensures forall p <- o :: o[p] == p
  {
    if n == 0 then map[] else Singles(base, n - 1)[base + n - 1 := base + n - 1]
  }

  /** The state before the first page is freed. */
  lemma InitGood(s: Pool, o: Owner)
    requires s.base >= 0 && |s.lists| == |s.nrFree| == MAX_ORDER
    requires forall k :: 0 <= k < MAX_ORDER ==> s.lists[k] == [] && s.nrFree[k] == 0
    requires forall i :: 0 <= i < |s.pages| ==> s.pages[i] == Page(true, 0)
    requires (forall p :: p in o <==> InPool(s, p)) && forall p <- o :: o[p] == p
    ensures Good(s, o) && FreePages(s, o) == {}
    ensures forall p :: InPool(s, p) ==> TakenHead(s, o, p) && Ord(s, p) == 0
  {
    forall p <- o ensures Ord(s, p) == 0 && !Free(s, p) { }
    forall h | Head(o, h) ensures ChunkOk(s, h) { }
    assert Chunks(s, o);
    assert Listed(s, o, {});
    assert Coalesced(s, o, {});
    assert forall p <- o :: !Free(s, o[p]);
    assert FreePages(s, o) == {};
  }

  lemma SinglePage(s: Pool, o: Owner, c: int)
    requires Good(s, o) && Head(o, c) && Ord(s, c) == 0
    ensures Block(o, c) == {c}
  {
    forall p ensures p in Block(o, c) <==> p == c { BlockIsRange(s, o, c, p); }
  }

  /** Taking a block and giving it back restores every free list up to order. */
  lemma AllocateThenFree(s: Pool, o: Owner, t: Pool, r: Owner, u: Pool, q: Owner, b: set<int>)
    requires Good(s, o) && Good(t, r) && Good(u, q)
    requires s.base == t.base == u.base && |s.pages| == |t.pages| == |u.pages|
    requires b <= FreePages(s, o) && FreePages(t, r) == FreePages(s, o) - b
    requires FreePages(u, q) == FreePages(t, r) + b
    ensures forall h, k :: FreeHead(u, q, h, k) <==> FreeHead(s, o, h, k)
    ensures forall k :: 0 <= k < MAX_ORDER ==>
      multiset(u.lists[k]) == multiset(s.lists[k]) && u.nrFree[k] == s.nrFree[k]
  {
    assert FreePages(u, q) == FreePages(s, o);
    SameFreeChunks(s, o, u, q);
  }

  lemma GoodChunks(s: Pool, o: Owner)
    requires Good(s, o)
    ensures Chunks(s, o) && Shaped(s, o) && forall h :: Head(o, h) ==> ChunkOk(s, h)
  {
  }

  /** The page is the first of the smallest list that can serve the order. */
  ghost predicate FirstFit(s: Pool, order: int, page: int) {
    exists k :: 0 <= order <= k < |s.lists| && s.lists[k] != [] && page == s.lists[k][0]
      && forall j :: order <= j < k ==> s.lists[j] == []
  }

  /** All allocated chunks but `c` keep their order and their pages. */
  ghost predicate OthersSame(s: Pool, o: Owner, t: Pool, r: Owner, c: int)
    requires Shaped(s, o) && Shaped(t, r)
  {
    && (forall h :: h != c ==> (TakenHead(t, r, h) <==> TakenHead(s, o, h)))
    && (forall h :: h != c && TakenHead(s, o, h) && InPool(t, h) ==> Ord(t, h) == Ord(s, h))
  }

  lemma OthersRefl(s: Pool, o: Owner, c: int)
    requires Shaped(s, o)
    ensures OthersSame(s, o, s, o, c)
  {
  }

  lemma OthersTrans(s: Pool, o: Owner, t: Pool, r: Owner, u: Pool, q: Owner, c: int)
    requires Shaped(s, o) && Shaped(t, r) && Shaped(u, q)
    requires OthersSame(s, o, t, r, c) && OthersSame(t, r, u, q, c)
    ensures OthersSame(s, o, u, q, c)
  {
    forall h | h != c && TakenHead(s, o, h) && InPool(u, h) ensures Ord(u, h) == Ord(s, h) {
      assert TakenHead(t, r, h);
    }
  }

  lemma SplitOthers(s: Pool, o: Owner, c: int)
    requires Good(s, o) && TakenHead(s, o, c) && Ord(s, c) >= 1
    ensures ChunkOk(s, c) && InPool(s, Flip(c, Ord(s, c) - 1))
    ensures Shaped(SplitStep(s, c), SplitOwner(s, o, c))
    ensures OthersSame(s, o, SplitStep(s, c), SplitOwner(s, o, c), c)
  {
    hide Floor, Flip, Pow, Good, Block, SplitStep, SplitOwner;
    GoodChunks(s, o);
    SplitGood(s, o, c);
    GoodChunks(SplitStep(s, c), SplitOwner(s, o, c));
  }

  lemma TakeOthers(s: Pool, o: Owner, k: int)
    requires Good(s, o) && 0 <= k < MAX_ORDER && s.lists[k] != []
    ensures FreeHead(s, o, s.lists[k][0], k)
    ensures Shaped(TakeFront(s, k), o) && OthersSame(s, o, TakeFront(s, k), o, s.lists[k][0])
  {
    hide Floor, Flip, Pow, Chunks, Listed, Coalesced, Block;
    GoodChunks(s, o);
    TakeGood(s, o, k);
    GoodChunks(TakeFront(s, k), o);
  }

  lemma TakenNotFree(s: Pool, o: Owner, c: int)
    requires Good(s, o) && TakenHead(s, o, c)
    ensures FreePages(s, o) !! Block(o, c)
  {
  }

  lemma GetSets(f: set<int>, f2: set<int>, b: set<int>, b2: set<int>)
    requires b <= f && b2 <= b && f2 + b2 == f - b + b && f2 !! b2
    ensures b2 <= f && f2 == f - b2
  {
  }

  lemma SameTakenAt(s: Pool, o: Owner, t: Pool, r: Owner)
    requires Shaped(s, o) && Shaped(t, r) && SameTaken(s, o, t, r)
    ensures forall h :: TakenHead(t, r, h) <==> TakenHead(s, o, h)
    ensures forall h :: TakenHead(t, r, h) ==> Ord(t, h) == Ord(s, h)
  {
  }

  lemma SameTakenRefl(s: Pool, o: Owner)
    requires Shaped(s, o)
    ensures SameTaken(s, o, s, o)
  {
  }

  lemma SameTakenTrans(s: Pool, o: Owner, t: Pool, r: Owner, u: Pool, q: Owner)
    requires Shaped(s, o) && Shaped(t, r) && Shaped(u, q)
    requires SameTaken(s, o, t, r) && SameTaken(t, r, u, q)
    ensures SameTaken(s, o, u, q)
  {
    forall h | TakenHead(s, o, h) && InPool(u, h) ensures Ord(u, h) == Ord(s, h) {
      assert TakenHead(t, r, h);
    }
  }

  /** Chunk `c` is the next of its list to be handed out. */
  ghost predicate ListedFirst(s: Pool, c: int) {
    exists k :: 0 <= k < |s.lists| && s.lists[k] != [] && s.lists[k][0] == c
  }

  /** The pages of both chunks belong to the merged one. */
  lemma MergedPages(s: Pool, o: Owner, c: int)
    requires Mid(s, o, c) && c >= 0 && ChunkOk(s, c) && Mergeable(s, c)
    ensures forall p <- o :: o[p] == c ==> p in MergedOwner(s, o, c) && MergedOwner(s, o, c)[p] == Lower(c, Ord(s, c))
  {
    hide Mid, Mergeable, MergeStep, MergedOwner, Floor, Flip, Pow;
    MergeGives(s, o, c);
  }

  lemma MidChunk(s: Pool, o: Owner, c: int)
    requires Mid(s, o, c)
    ensures ChunkOk(s, c) && Shaped(s, o)
  {
  }
}
