/** What the pool invariant means for allocation: completeness, canonicity and accounting. */
module BuddyTheorems {
  import opened BuddyBits
  import opened BuddyModel
  import opened Lists

  /** A naturally aligned block of 2^k pages inside the pool, all of them free. */
  ghost predicate WhollyFree(s: Pool, free: set<int>, a: int, k: int) {
    && s.base <= a && a >= 0 && 0 <= k < MAX_ORDER && Floor(a, k) == a && a + Pow(k) <= s.base + |s.pages|
    && forall p :: a <= p < a + Pow(k) ==> p in free
  }

  /** The block of a chunk is an interval. */
  lemma BlockIsRange(s: Pool, o: Owner, h: int, p: int)
    requires Chunks(s, o) && Head(o, h)
    ensures ChunkOk(s, h)
    ensures p in Block(o, h) <==> h <= p < h + Pow(Ord(s, h))
  {
    assert ChunkOk(s, h);
    if p >= 0 {
      BlockPages(h, Ord(s, h), p);
      if p in o {
        assert Holds(s, h, p) <==> Floor(p, Ord(s, h)) == h;
        assert Head(o, o[p]) && Holds(s, o[p], p);
      }
    }
  }

  lemma FreeHeadWhole(s: Pool, o: Owner, h: int, k: int)
    requires Chunks(s, o) && FreeHead(s, o, h, k)
    ensures WhollyFree(s, FreePages(s, o), h, k)
  {
    assert ChunkOk(s, h);
    forall p | h <= p < h + Pow(k) ensures p in FreePages(s, o) {
      BlockIsRange(s, o, h, p);
    }
  }

  /** Both halves of a wholly free block are wholly free. */
  lemma HalvesFree(s: Pool, free: set<int>, a: int, k: int)
    requires WhollyFree(s, free, a, k) && k >= 1
    ensures WhollyFree(s, free, a, k - 1)
    ensures Flip(a, k - 1) == a + Pow(k - 1) && WhollyFree(s, free, Flip(a, k - 1), k - 1)
  {
    FloorOfFloor(a, k - 1, k);
    FlipAligned(a, k - 1);
    assert Pow(k) == 2 * Pow(k - 1);
  }

  lemma {:induction false} SmallerFree(s: Pool, free: set<int>, a: int, j: int, k: int)
    requires WhollyFree(s, free, a, j) && 0 <= k <= j
    ensures WhollyFree(s, free, a, k)
    decreases j
  {
    hide WhollyFree;
    if k < j {
      HalvesFree(s, free, a, j);
      SmallerFree(s, free, a, j - 1, k);
    }
  }

  lemma NotBothFree(s: Pool, o: Owner, a: int, k: int)
    requires Good(s, o) && 0 <= k < MAX_ORDER - 1 && a >= 0
    ensures !(FreeHead(s, o, a, k) && FreeHead(s, o, Flip(a, k), k))
  {
    assert a !in {} && Flip(a, k) !in {};
  }

  /** A head lies in no other chunk. */
  lemma HeadOnce(s: Pool, o: Owner, h: int, h2: int)
    requires Chunks(s, o) && Head(o, h) && Head(o, h2)
    ensures ChunkOk(s, h) && ChunkOk(s, h2)
    ensures Holds(s, h2, h) ==> h == h2
  {
  }

  lemma FreePageInChunk(s: Pool, o: Owner, a: int) returns (h: int, j: int)
    requires Good(s, o) && WhollyFree(s, FreePages(s, o), a, 0)
    ensures 0 <= j < MAX_ORDER && FreeHead(s, o, h, j) && Floor(a, j) == h
  {
    hide Listed, Coalesced;
    assert a in FreePages(s, o);
    h, j := o[a], Ord(s, o[a]);
    assert Head(o, h) && ChunkOk(s, h) && Holds(s, h, a);
  }

  lemma GoodShaped(s: Pool, o: Owner)
    requires Good(s, o)
    ensures Shaped(s, o) && Chunks(s, o)
  {
  }

  lemma BlockPlace(s: Pool, free: set<int>, a: int, k: int)
    requires WhollyFree(s, free, a, k)
    ensures a >= 0 && 0 <= k < MAX_ORDER && Floor(a, k) == a
  {
  }

  /** Because free buddies are merged, a wholly free block lies in one free chunk. */
  lemma {:induction false} FreeBlockInChunk(s: Pool, o: Owner, a: int, k: int) returns (h: int, j: int)
    requires Good(s, o) && WhollyFree(s, FreePages(s, o), a, k)
    ensures k <= j < MAX_ORDER && Shaped(s, o) && FreeHead(s, o, h, j) && Floor(a, j) == h
    decreases k
  {
    hide Good, WhollyFree, FreeHead, FreePages, Floor, Flip, Chunks, Shaped;
    GoodShaped(s, o);
    var free := FreePages(s, o);
    BlockPlace(s, free, a, k);
    if k == 0 {
      h, j := FreePageInChunk(s, o, a);
    } else {
      HalvesFree(s, free, a, k);
      var b := Flip(a, k - 1);
      BlockPlace(s, free, a, k - 1);
      BlockPlace(s, free, b, k - 1);
      h, j := FreeBlockInChunk(s, o, a, k - 1);
      var h2, j2 := FreeBlockInChunk(s, o, b, k - 1);
      if j == k - 1 {
        FlipAligned(a, k - 1);
        NotBothFree(s, o, a, k - 1);
        FloorOfFloor(a, k, j2);
        FloorOfFloor(b, k, j2);
        h, j := h2, j2;
      }
    }
  }

  /** `buddy_get_pages` finds a chunk exactly when some naturally aligned block is wholly free. */
  lemma Completeness(s: Pool, o: Owner, k: int)
    requires Good(s, o) && 0 <= k < MAX_ORDER
    ensures (exists j :: k <= j < MAX_ORDER && s.lists[j] != []) <==>
      (exists a :: WhollyFree(s, FreePages(s, o), a, k))
  {
    if j :| k <= j < MAX_ORDER && s.lists[j] != [] {
      var h := s.lists[j][0];
      assert h in s.lists[j];
      FreeHeadWhole(s, o, h, j);
      FloorOfFloor(h, k, j);
      PowGrows(k, j);
      assert WhollyFree(s, FreePages(s, o), h, k);
    }
    if a :| WhollyFree(s, FreePages(s, o), a, k) {
      var h, j := FreeBlockInChunk(s, o, a, k);
      assert h in s.lists[j];
    }
  }

  /** A wholly free block that cannot grow: at the top order, or the block around it is not free. */
  ghost predicate Maximal(s: Pool, free: set<int>, a: int, k: int) {
    WhollyFree(s, free, a, k) && (k < MAX_ORDER - 1 ==> !WhollyFree(s, free, Floor(a, k + 1), k + 1))
  }

  /** The free chunks are the maximal wholly free blocks: they depend on the free pages alone. */
  lemma Canonical(s: Pool, o: Owner, h: int, k: int)
    requires Good(s, o)
    ensures FreeHead(s, o, h, k) <==> Maximal(s, FreePages(s, o), h, k)
  {
    var free := FreePages(s, o);
    if FreeHead(s, o, h, k) {
      FreeHeadWhole(s, o, h, k);
      if k < MAX_ORDER - 1 && WhollyFree(s, free, Floor(h, k + 1), k + 1) {
        var a := Floor(h, k + 1);
        var h2, j := FreeBlockInChunk(s, o, a, k + 1);
        FloorOfFloor(h, k + 1, j);
        HeadOnce(s, o, h, h2);
      }
    }
    if Maximal(s, free, h, k) {
      var h2, j := FreeBlockInChunk(s, o, h, k);
      if j > k {
        FreeHeadWhole(s, o, h2, j);
        FloorOfFloor(h, k + 1, j);
        FloorOfFloor(h, k + 1, k + 1);
        Nested(s, free, h2, j, Floor(h, k + 1), k + 1);
      }
    }
  }

  /** A smaller aligned block inside a wholly free one is wholly free. */
  lemma Nested(s: Pool, free: set<int>, h: int, j: int, a: int, k: int)
    requires WhollyFree(s, free, h, j) && 0 <= k <= j && a >= 0 && Floor(a, k) == a && Floor(a, j) == h
    ensures WhollyFree(s, free, a, k)
  {
    BlockPages(h, j, a);
    var last := a + Pow(k) - 1;
    BlockPages(a, k, last);
    FloorOfFloor(last, k, j);
    BlockPages(h, j, last);
  }

  /** Two good states of one pool with the same free pages have the same free chunks. */
  lemma SameFreeChunks(s: Pool, o: Owner, t: Pool, r: Owner)
    requires Good(s, o) && Good(t, r) && s.base == t.base && |s.pages| == |t.pages|
    requires FreePages(s, o) == FreePages(t, r)
    ensures forall h, k :: FreeHead(s, o, h, k) <==> FreeHead(t, r, h, k)
    ensures forall k :: 0 <= k < MAX_ORDER ==>
      multiset(s.lists[k]) == multiset(t.lists[k]) && s.nrFree[k] == t.nrFree[k]
  {
    forall h, k ensures FreeHead(s, o, h, k) <==> FreeHead(t, r, h, k) {
      Canonical(s, o, h, k);
      Canonical(t, r, h, k);
      assert Maximal(s, FreePages(s, o), h, k) <==> Maximal(t, FreePages(t, r), h, k);
    }
    forall k | 0 <= k < MAX_ORDER ensures multiset(s.lists[k]) == multiset(t.lists[k]) && s.nrFree[k] == t.nrFree[k] {
      assert forall a :: a in s.lists[k] <==> FreeHead(s, o, a, k) && a !in {};
      assert forall a :: a in t.lists[k] <==> FreeHead(t, r, a, k) && a !in {};
      SameElements(s.lists[k], t.lists[k]);
    }
  }

  lemma {:induction false} CountOnce(l: seq<int>, a: int)
    requires NoDup(l)
    ensures multiset(l)[a] == if a in l then 1 else 0
  {
    if l != [] {
      assert l == [l[0]] + l[1..];
      assert forall i :: 0 <= i < |l[1..]| ==> l[1..][i] == l[i + 1];
      CountOnce(l[1..], a);
    }
  }

  lemma SameElements(l: seq<int>, m: seq<int>)
    requires NoDup(l) && NoDup(m) && forall a :: a in l <==> a in m
    ensures multiset(l) == multiset(m) && |l| == |m|
  {
    forall a ensures multiset(l)[a] == multiset(m)[a] {
      CountOnce(l, a);
      CountOnce(m, a);
    }
    assert multiset(l) == multiset(m);
    assert |l| == |multiset(l)| && |m| == |multiset(m)|;
  }

  // ---------- accounting ----------

  lemma {:induction false} RangeSize(r: set<int>, a: int, n: int)
    requires n >= 0 && forall p :: p in r <==> a <= p < a + n
    ensures |r| == n
    decreases n
  {
    if n > 0 {
      var q := r - {a + n - 1};
      RangeSize(q, a, n - 1);
      assert r == q + {a + n - 1};
    } else {
      forall p ensures p !in r { }
      assert r == {};
    }
  }

  lemma BlockSize(s: Pool, o: Owner, h: int)
    requires Chunks(s, o) && Head(o, h)
    ensures ChunkOk(s, h) && |Block(o, h)| == Pow(Ord(s, h))
  {
    assert ChunkOk(s, h);
    var n := Pow(Ord(s, h));
    forall p ensures p in Block(o, h) <==> h <= p < h + n { BlockIsRange(s, o, h, p); }
    RangeSize(Block(o, h), h, n);
  }

  ghost function ListPages(o: Owner, l: seq<int>): set<int> {
    set p | p in o && o[p] in l
  }

  lemma {:induction false} ListPagesSize(s: Pool, o: Owner, l: seq<int>, k: int)
    requires Chunks(s, o) && NoDup(l) && 0 <= k < MAX_ORDER
    requires forall a <- l :: Head(o, a) && Ord(s, a) == k
    ensures |ListPages(o, l)| == |l| * Pow(k)
  {
    hide Chunks, Pow;
    if l == [] {
      assert ListPages(o, l) == {};
    } else {
      var h, m := l[0], l[1..];
      NoDupTail(l);
      ListPagesSize(s, o, m, k);
      assert Head(o, h);
      BlockSize(s, o, h);
      ListCons(o, l);
      SumStep(|m|, Pow(k));
    }
  }

  lemma ListCons(o: Owner, l: seq<int>)
    requires l != [] && l[0] !in l[1..]
    ensures |ListPages(o, l)| == |Block(o, l[0])| + |ListPages(o, l[1..])|
  {
    assert l == [l[0]] + l[1..];
    assert ListPages(o, l) == Block(o, l[0]) + ListPages(o, l[1..]);
    assert Block(o, l[0]) !! ListPages(o, l[1..]);
  }

  lemma SumStep(n: int, x: int)
    ensures x + n * x == (n + 1) * x
  {
  }

  /** The pages of all free chunks of order below `k`. */
  ghost function PagesBelow(s: Pool, o: Owner, k: int): set<int>
    requires Chunks(s, o)
  {
    set p | p in o && Free(s, o[p]) && Ord(s, o[p]) < k
  }

  ghost function TotalBelow(s: Pool, k: int): int
    requires 0 <= k <= |s.nrFree|
  {
    if k == 0 then 0 else TotalBelow(s, k - 1) + s.nrFree[k - 1] * Pow(k - 1)
  }

  lemma {:induction false} FreeTotal(s: Pool, o: Owner, k: int)
    requires Good(s, o) && 0 <= k <= MAX_ORDER
    ensures |PagesBelow(s, o, k)| == TotalBelow(s, k)
  {
    if k == 0 {
      forall p <- o ensures Ord(s, o[p]) >= 0 { assert Head(o, o[p]) && ChunkOk(s, o[p]); }
      assert PagesBelow(s, o, 0) == {};
    } else {
      FreeTotal(s, o, k - 1);
      var l := s.lists[k - 1];
      forall a <- l ensures Head(o, a) && Ord(s, a) == k - 1 { assert FreeHead(s, o, a, k - 1); }
      ListPagesSize(s, o, l, k - 1);
      forall p ensures p in PagesBelow(s, o, k) <==> p in PagesBelow(s, o, k - 1) + ListPages(o, l) {
        if p in o {
          assert Head(o, o[p]);
          assert o[p] in l <==> FreeHead(s, o, o[p], k - 1) && o[p] !in {};
        }
      }
      assert PagesBelow(s, o, k) == PagesBelow(s, o, k - 1) + ListPages(o, l);
      assert PagesBelow(s, o, k - 1) !! ListPages(o, l);
    }
  }

  /** The counters add up to the number of free pages. */
  lemma FreeAccounting(s: Pool, o: Owner)
    requires Good(s, o)
    ensures TotalBelow(s, MAX_ORDER) == |FreePages(s, o)|
  {
    FreeTotal(s, o, MAX_ORDER);
    forall p <- o ensures Ord(s, o[p]) < MAX_ORDER { assert Head(o, o[p]) && ChunkOk(s, o[p]); }
    assert PagesBelow(s, o, MAX_ORDER) == FreePages(s, o);
  }
}
