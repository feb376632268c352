/** The state of a physical memory pool (`kernel/mm/buddy.c`) as a value, its invariant,
and what one split and one merge step do to it. Pages are named by their absolute page
number, so that a buddy is found by flipping one bit. */
module BuddyModel {
  import opened BuddyBits
  import opened Lists

  const MAX_ORDER := 15

  /** `struct page`: trusted only at the head of a chunk. */
  datatype Page = Page(taken: bool, order: int)

  datatype Pool = Pool(base: int, pages: seq<Page>, lists: seq<seq<int>>, nrFree: seq<int>)

  /** Which chunk every page belongs to: page -> head of its chunk. */
  type Owner = map<int, int>

  ghost predicate InPool(s: Pool, p: int) {
    s.base <= p < s.base + |s.pages|
  }

  ghost function Ord(s: Pool, p: int): int
    requires InPool(s, p)
  {
    s.pages[p - s.base].order
  }

  ghost predicate Free(s: Pool, p: int)
    requires InPool(s, p)
  {
    !s.pages[p - s.base].taken
  }

  ghost predicate Head(o: Owner, h: int) {
    h in o && o[h] == h
  }

  ghost predicate Shaped(s: Pool, o: Owner) {
    && s.base >= 0 && |s.lists| == |s.nrFree| == MAX_ORDER
    && (forall p :: p in o <==> InPool(s, p))
  }

  /** The chunk with head `h` is naturally aligned and lies in the pool. */
  ghost predicate ChunkOk(s: Pool, h: int) {
    && InPool(s, h) && h >= 0
    && 0 <= Ord(s, h) < MAX_ORDER
    && Floor(h, Ord(s, h)) == h
    && h + Pow(Ord(s, h)) <= s.base + |s.pages|
  }

  ghost predicate Holds(s: Pool, h: int, p: int)
    requires ChunkOk(s, h) && p >= 0
  {
    Floor(p, Ord(s, h)) == h
  }

  /** Chunk heads cut the pool into naturally aligned chunks. */
  ghost predicate Chunks(s: Pool, o: Owner) {
    && Shaped(s, o)
    && (forall h :: Head(o, h) ==> ChunkOk(s, h))
    && (forall p <- o :: Head(o, o[p]) && Holds(s, o[p], p))
    && (forall h, p :: Head(o, h) && p in o && Holds(s, h, p) ==> o[p] == h)
  }

  ghost predicate FreeHead(s: Pool, o: Owner, h: int, k: int)
    requires Shaped(s, o)
  {
    Head(o, h) && Free(s, h) && Ord(s, h) == k
  }

  /** Free list `k` holds exactly the free heads of order `k`, apart from the chunks in `x`. */
  ghost predicate Listed(s: Pool, o: Owner, x: set<int>)
    requires Shaped(s, o)
  {
    forall k :: 0 <= k < MAX_ORDER ==>
      && NoDup(s.lists[k]) && s.nrFree[k] == |s.lists[k]|
      && (forall a :: a in s.lists[k] <==> FreeHead(s, o, a, k) && a !in x)
  }

  /** No two buddies of equal order below the top are both free. */
  ghost predicate Coalesced(s: Pool, o: Owner, x: set<int>)
    requires Shaped(s, o)
  {
    forall h, k :: 0 <= k < MAX_ORDER - 1 && FreeHead(s, o, h, k) && h !in x && h >= 0 ==>
      !(FreeHead(s, o, Flip(h, k), k) && Flip(h, k) !in x)
  }

  ghost predicate Good(s: Pool, o: Owner) {
    Chunks(s, o) && Listed(s, o, {}) && Coalesced(s, o, {})
  }

  /** One free chunk `c` is on its way to a free list. */
  ghost predicate Mid(s: Pool, o: Owner, c: int) {
    Chunks(s, o) && Head(o, c) && Free(s, c) && Listed(s, o, {c}) && Coalesced(s, o, {c})
  }

  ghost function FreePages(s: Pool, o: Owner): set<int>
    requires Chunks(s, o)
  {
    set p | p in o && Free(s, o[p])
  }

  lemma OwnerHolds(s: Pool, o: Owner, p: int)
    requires Chunks(s, o) && p in o
    ensures p >= 0 && Head(o, o[p]) && ChunkOk(s, o[p]) && Holds(s, o[p], p)
  {
    hide Floor, Pow;
  }

  lemma HolderOwns(s: Pool, o: Owner, h: int, p: int)
    requires Chunks(s, o) && Head(o, h) && p in o && p >= 0
    ensures ChunkOk(s, h) && (Holds(s, h, p) ==> o[p] == h)
  {
    hide Floor, Pow;
  }

  /** Stale metadata never misleads: the buddy of a chunk, if it lies in the pool, is itself
  a head, of no larger order. */
  lemma BuddyIsHead(s: Pool, o: Owner, c: int)
    requires Chunks(s, o) && Head(o, c) && InPool(s, Flip(c, Ord(s, c)))
    ensures ChunkOk(s, c)
    ensures Head(o, Flip(c, Ord(s, c))) && Ord(s, Flip(c, Ord(s, c))) <= Ord(s, c)
  {
    ChunksShaped(s, o);
    hide Chunks, Floor, Flip, Pow;
    OwnerHolds(s, o, c);
    var k := Ord(s, c);
    var b := Flip(c, k);
    FlipAligned(c, k);
    var h := o[b];
    OwnerHolds(s, o, b);
    var j := Ord(s, h);
    if j <= k {
      FloorOfFloor(b, j, k);
    } else {
      FloorOfFloor(b, k + 1, j);
      FloorOfFloor(c, k + 1, j);
      HolderOwns(s, o, h, c);
    }
  }

  // ---------- one merge step ----------

  ghost function SetOrder(s: Pool, p: int, k: int): (t: Pool)
    requires InPool(s, p)
  {
    s.(pages := s.pages[p - s.base := s.pages[p - s.base].(order := k)])
  }

  ghost function Unlist(s: Pool, k: int, a: int): Pool
    requires 0 <= k < |s.lists| == |s.nrFree|
  {
    s.(lists := s.lists[k := Without(s.lists[k], a)], nrFree := s.nrFree[k := s.nrFree[k] - 1])
  }

  ghost function Enlist(s: Pool, k: int, a: int): Pool
    requires 0 <= k < |s.lists| == |s.nrFree|
  {
    s.(lists := s.lists[k := [a] + s.lists[k]], nrFree := s.nrFree[k := s.nrFree[k] + 1])
  }

  /** When `merge_chunk` goes on: the buddy is in the pool, free and of the same order. */
  ghost predicate Mergeable(s: Pool, c: int)
    requires InPool(s, c) && c >= 0
  {
    var k := Ord(s, c);
    && 0 <= k < MAX_ORDER - 1
    && s.base <= Flip(c, k) && Flip(c, k) + Pow(k) <= s.base + |s.pages|
    && Free(s, Flip(c, k)) && Ord(s, Flip(c, k)) == k
  }

  ghost function MergeStep(s: Pool, c: int): Pool
    requires InPool(s, c) && c >= 0 && Mergeable(s, c) && |s.lists| == |s.nrFree| == MAX_ORDER
  {
    var k := Ord(s, c);
    SetOrder(SetOrder(Unlist(s, k, Flip(c, k)), Flip(c, k), k + 1), c, k + 1)
  }

  /** All pages of the order-`k` block at `c` now belong to `c`. */
  ghost function Claim(o: Owner, c: int, k: nat): (r: Owner)
    ensures r.Keys == o.Keys
  {
    map p | p in o :: if p >= 0 && Floor(p, k) == c then c else o[p]
  }

  ghost function Lower(c: int, k: nat): int
    requires c >= 0
  {
    if Flip(c, k) < c then Flip(c, k) else c
  }

  /** What a mergeable chunk and its buddy look like. */
  lemma MergePair(s: Pool, o: Owner, c: int)
    requires Mid(s, o, c) && c >= 0 && Mergeable(s, c)
    ensures ChunkOk(s, c)
    ensures var k, b := Ord(s, c), Flip(c, Ord(s, c));
      && Head(o, b) && Free(s, b) && Ord(s, b) == k && b != c && b in s.lists[k]
      && Floor(c, k) == c && Floor(b, k) == b && Flip(b, k) == c
      && Floor(Lower(c, k), k + 1) == Lower(c, k) && Floor(c, k + 1) == Floor(b, k + 1) == Lower(c, k)
      && (forall p <- o :: Floor(p, k + 1) == Lower(c, k) <==> o[p] == c || o[p] == b)
  {
    var k, b := Ord(s, c), Flip(c, Ord(s, c));
    BuddyIsHead(s, o, c);
    FlipAligned(c, k);
    FlipAligned(b, k);
    FloorOfFloor(c, k + 1, k + 1);
    var l := Lower(c, k);
    forall p <- o ensures Floor(p, k + 1) == l <==> o[p] == c || o[p] == b {
      TwoHalves(l, k, p);
      assert Holds(s, c, p) <==> Floor(p, k) == c;
      assert Holds(s, b, p) <==> Floor(p, k) == b;
      assert Head(o, o[p]) && Holds(s, o[p], p);
    }
    assert FreeHead(s, o, b, k) && b !in {c};
  }

  ghost function MergedOwner(s: Pool, o: Owner, c: int): Owner
    requires InPool(s, c) && c >= 0 && Ord(s, c) >= 0
  {
    Claim(o, Lower(c, Ord(s, c)), Ord(s, c) + 1)
  }

  /** The pages outside the chunks with heads `c` and `b` keep their metadata and their owner;
  those inside belong to the free chunk `l` of order `k + 1`. */
  ghost predicate MergedTo(s: Pool, o: Owner, c: int, b: int, l: int, k: int, t: Pool, r: Owner) {
    && Shaped(s, o) && Shaped(t, r) && t.base == s.base && |t.pages| == |s.pages|
    && (l == c || l == b) && c != b && Head(o, c) && Head(o, b)
    && InPool(t, l) && Ord(t, l) == k + 1 && Free(t, l)
    && (forall p :: InPool(s, p) && p != c && p != b ==> t.pages[p - s.base] == s.pages[p - s.base])
    && (forall p <- o :: r[p] == if o[p] == c || o[p] == b then l else o[p])
  }

  /** A merge step changes the metadata of the two heads only. */
  lemma MergePages(s: Pool, c: int)
    requires InPool(s, c) && c >= 0 && Mergeable(s, c) && |s.lists| == |s.nrFree| == MAX_ORDER
    requires Free(s, c) && Flip(c, Ord(s, c)) != c
    ensures var b, k, t := Flip(c, Ord(s, c)), Ord(s, c), MergeStep(s, c);
      && t.base == s.base && |t.pages| == |s.pages| && |t.lists| == |t.nrFree| == MAX_ORDER
      && InPool(t, b) && Ord(t, c) == Ord(t, b) == k + 1 && Free(t, c) && Free(t, b)
      && (forall p :: InPool(s, p) && p != c && p != b ==> t.pages[p - s.base] == s.pages[p - s.base])
  {
    hide Flip, Without;
  }

  lemma MergeGives(s: Pool, o: Owner, c: int)
    requires Mid(s, o, c) && c >= 0 && Mergeable(s, c)
    ensures MergedTo(s, o, c, Flip(c, Ord(s, c)), Lower(c, Ord(s, c)), Ord(s, c), MergeStep(s, c), MergedOwner(s, o, c))
  {
    hide Coalesced, Listed, Floor, Flip, Pow, Chunks, MergeStep;
    MergePair(s, o, c);
    ChunksShaped(s, o);
    MergePages(s, c);
  }

  lemma MergedShape(s: Pool, o: Owner, c: int, b: int, l: int, k: int, t: Pool, r: Owner)
    requires MergedTo(s, o, c, b, l, k, t, r)
    ensures Shaped(s, o) && Shaped(t, r) && InPool(t, l) && Free(t, l)
  {
  }

  lemma MergedHeads(s: Pool, o: Owner, c: int, b: int, l: int, k: int, t: Pool, r: Owner)
    requires MergedTo(s, o, c, b, l, k, t, r)
    ensures Head(r, l)
    ensures forall h :: Head(r, h) <==> h == l || (Head(o, h) && h != c && h != b)
  {
    forall h ensures Head(r, h) <==> h == l || (Head(o, h) && h != c && h != b) {
      if h in o { assert h in r; }
    }
  }

  lemma MergedOk(s: Pool, o: Owner, c: int, b: int, l: int, k: int, t: Pool, r: Owner, h: int)
    requires MergedTo(s, o, c, b, l, k, t, r) && Chunks(s, o) && ChunkOk(t, l) && Head(r, h)
    ensures ChunkOk(t, h) && (h != l ==> Head(o, h) && h != c && h != b && ChunkOk(s, h) && Ord(t, h) == Ord(s, h))
  {
    hide Floor, Pow, Holds;
    MergedHeads(s, o, c, b, l, k, t, r);
  }

  lemma MergedHolds(s: Pool, o: Owner, c: int, b: int, l: int, k: int, t: Pool, r: Owner, p: int)
    requires MergedTo(s, o, c, b, l, k, t, r) && Chunks(s, o) && ChunkOk(t, l) && p in r
    requires forall p <- o :: Floor(p, k + 1) == l <==> o[p] == c || o[p] == b
    ensures p >= 0 && Head(r, r[p]) && ChunkOk(t, r[p]) && Holds(t, r[p], p)
  {
    hide Floor, Pow;
    MergedHeads(s, o, c, b, l, k, t, r);
    assert Head(o, o[p]) && Holds(s, o[p], p);
    MergedOk(s, o, c, b, l, k, t, r, r[p]);
  }

  lemma MergedOwns(s: Pool, o: Owner, c: int, b: int, l: int, k: int, t: Pool, r: Owner, h: int, p: int)
    requires MergedTo(s, o, c, b, l, k, t, r) && Chunks(s, o) && ChunkOk(t, l) && p in r && p >= 0 && Head(r, h)
      && ChunkOk(t, h)
    requires forall p <- o :: Floor(p, k + 1) == l <==> o[p] == c || o[p] == b
    ensures Holds(t, h, p) ==> r[p] == h
  {
    hide Floor, Pow;
    MergedOk(s, o, c, b, l, k, t, r, h);
    if h != l { assert Holds(s, h, p) ==> o[p] == h; }
  }

  lemma MergedChunks(s: Pool, o: Owner, c: int, b: int, l: int, k: int, t: Pool, r: Owner)
    requires MergedTo(s, o, c, b, l, k, t, r) && Chunks(s, o) && ChunkOk(t, l)
    requires forall p <- o :: Floor(p, k + 1) == l <==> o[p] == c || o[p] == b
    ensures Chunks(t, r)
  {
    hide Floor, Pow, ChunkOk, Holds, Head;
    MergedShape(s, o, c, b, l, k, t, r);
    forall h | Head(r, h) ensures ChunkOk(t, h) { MergedOk(s, o, c, b, l, k, t, r, h); }
    forall p <- r
      ensures p >= 0 && Head(r, r[p]) && ChunkOk(t, r[p])
        && Holds(t, r[p], p)
    {
      MergedHolds(s, o, c, b, l, k, t, r, p);
    }
    forall h, p | Head(r, h) && p in r && Holds(t, h, p) ensures r[p] == h { MergedOwns(s, o, c, b, l, k, t, r, h, p); }
  }

  lemma MergedListed(s: Pool, o: Owner, c: int, b: int, l: int, k: int, t: Pool, r: Owner)
    requires MergedTo(s, o, c, b, l, k, t, r) && Listed(s, o, {c}) && 0 <= k < MAX_ORDER && b in s.lists[k]
    requires t.lists == s.lists[k := Without(s.lists[k], b)] && t.nrFree == s.nrFree[k := s.nrFree[k] - 1]
    requires Ord(s, b) == k
    ensures Listed(t, r, {l})
  {
    MergedHeads(s, o, c, b, l, k, t, r);
    WithoutIs(s.lists[k], b);
    forall j | 0 <= j < MAX_ORDER
      ensures NoDup(t.lists[j]) && t.nrFree[j] == |t.lists[j]|
      ensures forall a :: a in t.lists[j] <==> FreeHead(t, r, a, j) && a !in {l}
    {
      forall a ensures a in t.lists[j] <==> FreeHead(t, r, a, j) && a !in {l} {
        assert a in s.lists[j] <==> FreeHead(s, o, a, j) && a !in {c};
      }
    }
  }

  lemma MergedCoalesced(s: Pool, o: Owner, c: int, b: int, l: int, k: int, t: Pool, r: Owner)
    requires MergedTo(s, o, c, b, l, k, t, r) && Coalesced(s, o, {c})
    ensures Coalesced(t, r, {l})
  {
    hide Flip;
    MergedHeads(s, o, c, b, l, k, t, r);
    forall h, j | 0 <= j < MAX_ORDER - 1 && FreeHead(t, r, h, j) && h !in {l} && h >= 0
      ensures !(FreeHead(t, r, Flip(h, j), j) && Flip(h, j) !in {l})
    {
      assert FreeHead(s, o, h, j) && h !in {c};
    }
  }

  lemma MergedFree(s: Pool, o: Owner, c: int, b: int, l: int, k: int, t: Pool, r: Owner)
    requires MergedTo(s, o, c, b, l, k, t, r) && Chunks(s, o) && Chunks(t, r) && Free(s, c) && Free(s, b)
    ensures FreePages(t, r) == FreePages(s, o)
    ensures SameTaken(s, o, t, r)
  {
    hide Floor, Pow;
    MergedHeads(s, o, c, b, l, k, t, r);
    forall p ensures p in FreePages(t, r) <==> p in FreePages(s, o) {
      if p in o { assert Head(o, o[p]) && p in r; }
    }
  }

  /** The same chunks are allocated, with the same orders. */
  ghost predicate SameTaken(s: Pool, o: Owner, t: Pool, r: Owner)
    requires Shaped(s, o) && Shaped(t, r)
  {
    && (forall h :: TakenHead(t, r, h) <==> TakenHead(s, o, h))
    && (forall h :: TakenHead(s, o, h) && InPool(t, h) ==> Ord(t, h) == Ord(s, h))
  }

  /** An allocated chunk. */
  ghost predicate TakenHead(s: Pool, o: Owner, h: int)
    requires Shaped(s, o)
  {
    Head(o, h) && !Free(s, h)
  }

  lemma MergeFits(s: Pool, o: Owner, c: int)
    requires Mid(s, o, c) && c >= 0 && Mergeable(s, c)
    ensures ChunkOk(MergeStep(s, c), Lower(c, Ord(s, c)))
  {
    hide Listed, Coalesced, Chunks, Floor, Flip, Pow;
    MergePair(s, o, c);
    FlipAligned(c, Ord(s, c));
    PowDouble(Ord(s, c));
  }

  lemma PowDouble(k: nat)
    ensures Pow(k + 1) == 2 * Pow(k)
  {
  }

  /** A merge step keeps the invariant, the free pages and the allocated chunks. */
  lemma MergeMid(s: Pool, o: Owner, c: int)
    requires Mid(s, o, c) && c >= 0 && Mergeable(s, c)
    ensures Mid(MergeStep(s, c), MergedOwner(s, o, c), Lower(c, Ord(s, c)))
    ensures FreePages(MergeStep(s, c), MergedOwner(s, o, c)) == FreePages(s, o)
    ensures SameTaken(s, o, MergeStep(s, c), MergedOwner(s, o, c))
  {
    hide Floor, Flip, Pow, Listed, Coalesced, Lower, Chunks, MergedTo;
    ChunksShaped(s, o);
    var k, b, l, t, r := Ord(s, c), Flip(c, Ord(s, c)), Lower(c, Ord(s, c)), MergeStep(s, c), MergedOwner(s, o, c);
    MergePair(s, o, c);
    MergeFits(s, o, c);
    MergeGives(s, o, c);
    MergedShape(s, o, c, b, l, k, t, r);
    MergedHeads(s, o, c, b, l, k, t, r);
    MergedChunks(s, o, c, b, l, k, t, r);
    MergedListed(s, o, c, b, l, k, t, r);
    MergedCoalesced(s, o, c, b, l, k, t, r);
    MergedFree(s, o, c, b, l, k, t, r);
  }

  // ---------- marking a chunk ----------

  ghost function Tag(s: Pool, p: int, taken: bool): Pool
    requires InPool(s, p)
  {
    s.(pages := s.pages[p - s.base := s.pages[p - s.base].(taken := taken)])
  }

  ghost function Block(o: Owner, h: int): set<int> {
    set p | p in o && o[p] == h
  }

  lemma TagChunks(s: Pool, o: Owner, c: int, taken: bool)
    requires Chunks(s, o) && Head(o, c)
    ensures Chunks(Tag(s, c, taken), o)
    ensures FreePages(Tag(s, c, taken), o) == if taken then FreePages(s, o) - Block(o, c)
      else FreePages(s, o) + Block(o, c)
  {
    hide Floor, Pow;
    var t := Tag(s, c, taken);
    forall h | Head(o, h) ensures ChunkOk(t, h) { assert ChunkOk(s, h); }
    forall p <- o ensures Holds(t, o[p], p) { assert Holds(s, o[p], p); }
    forall h, p | Head(o, h) && p in o && Holds(t, h, p) ensures o[p] == h { assert Holds(s, h, p); }
    forall p <- o ensures Head(o, o[p]) { }
  }

  /** `buddy_get_pages` takes the first chunk of list `k`. */
  ghost function TakeFront(s: Pool, k: int): Pool
    requires 0 <= k < |s.lists| == |s.nrFree| && s.lists[k] != [] && InPool(s, s.lists[k][0])
  {
    Tag(Unlist(s, k, s.lists[k][0]), s.lists[k][0], true)
  }

  lemma TakeListed(s: Pool, o: Owner, k: int, c: int)
    requires Chunks(s, o) && Listed(s, o, {}) && 0 <= k < MAX_ORDER && FreeHead(s, o, c, k)
    ensures var t := Tag(Unlist(s, k, c), c, true); Shaped(t, o) && Listed(t, o, {})
  {
    hide Floor, Pow, Flip, ChunkOk, Holds;
    var t := Tag(Unlist(s, k, c), c, true);
    WithoutIs(s.lists[k], c);
    forall j, a | 0 <= j < MAX_ORDER ensures a in t.lists[j] <==> FreeHead(t, o, a, j) {
      assert a in s.lists[j] <==> FreeHead(s, o, a, j) && a !in {};
    }
  }

  lemma TakeCoalesced(s: Pool, o: Owner, k: int, c: int)
    requires Chunks(s, o) && Coalesced(s, o, {}) && 0 <= k < MAX_ORDER && FreeHead(s, o, c, k)
    ensures var t := Tag(Unlist(s, k, c), c, true); Shaped(t, o) && Coalesced(t, o, {})
  {
    hide Floor, Pow, Flip, ChunkOk, Holds;
    var t := Tag(Unlist(s, k, c), c, true);
    forall h, j | 0 <= j < MAX_ORDER - 1 && FreeHead(t, o, h, j) && h >= 0
      ensures !FreeHead(t, o, Flip(h, j), j)
    {
      assert FreeHead(s, o, h, j) && h !in {};
    }
  }

  lemma TakeGood(s: Pool, o: Owner, k: int)
    requires Good(s, o) && 0 <= k < MAX_ORDER && s.lists[k] != []
    ensures FreeHead(s, o, s.lists[k][0], k)
    ensures Good(TakeFront(s, k), o)
    ensures FreePages(TakeFront(s, k), o) == FreePages(s, o) - Block(o, s.lists[k][0])
    ensures Block(o, s.lists[k][0]) <= FreePages(s, o)
    ensures forall h :: TakenHead(TakeFront(s, k), o, h) <==> TakenHead(s, o, h) || h == s.lists[k][0]
    ensures forall h :: Head(o, h) ==> Ord(TakeFront(s, k), h) == Ord(s, h)
  {
    hide Floor, Pow, Flip, ChunkOk, Holds, Coalesced, Without;
    var c := s.lists[k][0];
    assert c in s.lists[k];
    UnlistChunks(s, o, k, c);
    TagChunks(Unlist(s, k, c), o, c, true);
    TakeListed(s, o, k, c);
    TakeCoalesced(s, o, k, c);
  }

  lemma UnlistChunks(s: Pool, o: Owner, k: int, a: int)
    requires Chunks(s, o) && 0 <= k < MAX_ORDER
    ensures Chunks(Unlist(s, k, a), o) && FreePages(Unlist(s, k, a), o) == FreePages(s, o)
  {
    hide Floor, Pow;
    var t := Unlist(s, k, a);
    forall h | Head(o, h) ensures ChunkOk(t, h) { assert ChunkOk(s, h); }
    forall p <- o ensures Holds(t, o[p], p) { assert Holds(s, o[p], p); }
    forall h, p | Head(o, h) && p in o && Holds(t, h, p) ensures o[p] == h { assert Holds(s, h, p); }
  }

  lemma EnlistChunks(s: Pool, o: Owner, k: int, a: int)
    requires Chunks(s, o) && 0 <= k < MAX_ORDER
    ensures Chunks(Enlist(s, k, a), o) && FreePages(Enlist(s, k, a), o) == FreePages(s, o)
  {
    hide Floor, Pow;
    var t := Enlist(s, k, a);
    forall h | Head(o, h) ensures ChunkOk(t, h) { assert ChunkOk(s, h); }
    forall p <- o ensures Holds(t, o[p], p) { assert Holds(s, o[p], p); }
    forall h, p | Head(o, h) && p in o && Holds(t, h, p) ensures o[p] == h { assert Holds(s, h, p); }
  }

  /** `buddy_free_pages` first marks the chunk as free. */
  lemma FreeMid(s: Pool, o: Owner, c: int)
    requires Good(s, o) && TakenHead(s, o, c)
    ensures Mid(Tag(s, c, false), o, c)
    ensures FreePages(Tag(s, c, false), o) == FreePages(s, o) + Block(o, c)
    ensures forall h :: TakenHead(Tag(s, c, false), o, h) <==> TakenHead(s, o, h) && h != c
    ensures forall h :: Head(o, h) ==> Ord(Tag(s, c, false), h) == Ord(s, h)
  {
    hide Floor, Pow, Flip;
    var t := Tag(s, c, false);
    TagChunks(s, o, c, false);
    assert Listed(t, o, {c}) by {
      forall j, a | 0 <= j < MAX_ORDER ensures a in t.lists[j] <==> FreeHead(t, o, a, j) && a !in {c} {
        assert a in s.lists[j] <==> FreeHead(s, o, a, j) && a !in {};
      }
    }
    assert Coalesced(t, o, {c}) by {
      forall h, j | 0 <= j < MAX_ORDER - 1 && FreeHead(t, o, h, j) && h !in {c} && h >= 0
        ensures !(FreeHead(t, o, Flip(h, j), j) && Flip(h, j) !in {c})
      {
        assert FreeHead(s, o, h, j) && h !in {};
      }
    }
  }

  /** `buddy_free_pages` last puts the merged chunk into its free list. */
  lemma PutGood(s: Pool, o: Owner, c: int)
    requires Mid(s, o, c) && c >= 0 && ChunkOk(s, c) && !Mergeable(s, c)
    ensures Good(Enlist(s, Ord(s, c), c), o)
    ensures FreePages(Enlist(s, Ord(s, c), c), o) == FreePages(s, o)
    ensures SameTaken(s, o, Enlist(s, Ord(s, c), c), o)
  {
    hide Floor, Pow, Flip, Mergeable;
    var k := Ord(s, c);
    var t := Enlist(s, k, c);
    EnlistChunks(s, o, k, c);
    assert c !in s.lists[k];
    NoDupCons(c, s.lists[k]);
    assert Listed(t, o, {}) by {
      forall j, a | 0 <= j < MAX_ORDER ensures a in t.lists[j] <==> FreeHead(t, o, a, j) {
        assert a in s.lists[j] <==> FreeHead(s, o, a, j) && a !in {c};
      }
    }
    assert Coalesced(t, o, {}) by {
      forall h, j | 0 <= j < MAX_ORDER - 1 && FreeHead(t, o, h, j) && h >= 0
        ensures !FreeHead(t, o, Flip(h, j), j)
      {
        PutApart(s, o, c, h, j);
      }
    }
  }

  lemma PutApart(s: Pool, o: Owner, c: int, h: int, j: int)
    requires Mid(s, o, c) && c >= 0 && ChunkOk(s, c) && !Mergeable(s, c)
    requires 0 <= j < MAX_ORDER - 1 && FreeHead(s, o, h, j) && h >= 0
    ensures !FreeHead(s, o, Flip(h, j), j)
  {
    hide Floor, Flip, Pow;
    if FreeHead(s, o, Flip(h, j), j) && (h == c || Flip(h, j) == c) { PairMerges(s, o, c, h, j); }
  }

  /** Two free buddies of equal order can be merged, from either of them. */
  lemma PairMerges(s: Pool, o: Owner, c: int, h: int, j: int)
    requires Mid(s, o, c) && c >= 0 && 0 <= j < MAX_ORDER - 1 && h >= 0 && (h == c || Flip(h, j) == c)
    requires FreeHead(s, o, h, j) && FreeHead(s, o, Flip(h, j), j)
    ensures ChunkOk(s, c) && Mergeable(s, c)
  {
    assert ChunkOk(s, h) && ChunkOk(s, Flip(h, j));
    FlipAligned(h, j);
  }

  // ---------- one split step ----------

  /** `split_chunk` halves the chunk `c` and lists its upper half. */
  ghost function SplitStep(s: Pool, c: int): Pool
    requires InPool(s, c) && c >= 0 && 1 <= Ord(s, c) < MAX_ORDER && |s.lists| == |s.nrFree| == MAX_ORDER
    requires InPool(s, Flip(c, Ord(s, c) - 1))
  {
    var k := Ord(s, c) - 1;
    var b := Flip(c, k);
    var u := SetOrder(s, c, k);
    Enlist(u.(pages := u.pages[b - s.base := Page(false, k)]), k, b)
  }

  ghost function SplitOwner(s: Pool, o: Owner, c: int): Owner
    requires InPool(s, c) && c >= 0 && Ord(s, c) >= 1
  {
    Claim(o, Flip(c, Ord(s, c) - 1), Ord(s, c) - 1)
  }

  /** The pages outside the chunk `c` keep their metadata and owner; inside, the order-`k`
  half at `b` is a free chunk and the rest stays with `c`. */
  ghost predicate SplitTo(s: Pool, o: Owner, c: int, b: int, k: int, t: Pool, r: Owner) {
    && Shaped(s, o) && Shaped(t, r) && t.base == s.base && |t.pages| == |s.pages|
    && c != b && Head(o, c) && b in o && o[b] == c && r[b] == b && r[c] == c
    && InPool(t, b) && InPool(t, c) && Ord(t, b) == k && Free(t, b) && Ord(t, c) == k && !Free(t, c) && !Free(s, c)
    && (forall p :: InPool(s, p) && p != c && p != b ==> t.pages[p - s.base] == s.pages[p - s.base])
    && (forall p <- o :: o[p] != c ==> r[p] == o[p])
    && (forall p <- o :: o[p] == c ==> r[p] == c || r[p] == b)
  }

  /** The buddy of the halved chunk lies in the chunk, so `split_chunk` always finds it. */
  lemma HalfOwned(s: Pool, o: Owner, c: int, p: int)
    requires Chunks(s, o) && Head(o, c) && Ord(s, c) >= 1 && p in o
    ensures ChunkOk(s, c) && p >= 0
    ensures o[p] == c <==> Floor(p, Ord(s, c) - 1) == c || Floor(p, Ord(s, c) - 1) == Flip(c, Ord(s, c) - 1)
  {
    ChunksShaped(s, o);
    hide Chunks, Floor, Flip, Pow;
    OwnerHolds(s, o, p);
    HolderOwns(s, o, c, p);
    TwoHalves(c, Ord(s, c) - 1, p);
  }

  lemma SplitPair(s: Pool, o: Owner, c: int)
    requires Chunks(s, o) && Head(o, c) && Ord(s, c) >= 1
    ensures ChunkOk(s, c)
    ensures var k, b := Ord(s, c) - 1, Flip(c, Ord(s, c) - 1);
      && c >= 0 && b == c + Pow(k) && b in o && o[b] == c && InPool(s, b)
      && Floor(c, k) == c && Floor(b, k) == b && b + Pow(k) <= s.base + |s.pages|
      && (forall p <- o :: o[p] == c <==> Floor(p, k) == c || Floor(p, k) == b)
  {
    ChunksShaped(s, o);
    OwnerHolds(s, o, c);
    var k, b := Ord(s, c) - 1, Flip(c, Ord(s, c) - 1);
    assert Pow(k + 1) == 2 * Pow(k);
    hide Chunks, Floor, Flip, Pow;
    FloorOfFloor(c, k, k + 1);
    FlipAligned(c, k);
    forall p <- o ensures o[p] == c <==> Floor(p, k) == c || Floor(p, k) == b {
      HalfOwned(s, o, c, p);
    }
    assert b in o && Floor(b, k) == b;
  }

  lemma SplitGives(s: Pool, o: Owner, c: int)
    requires Good(s, o) && TakenHead(s, o, c) && Ord(s, c) >= 1
    ensures ChunkOk(s, c) && InPool(s, Flip(c, Ord(s, c) - 1))
    ensures SplitTo(s, o, c, Flip(c, Ord(s, c) - 1), Ord(s, c) - 1, SplitStep(s, c), SplitOwner(s, o, c))
  {
    hide Listed, Coalesced, Floor, Flip, Pow;
    SplitPair(s, o, c);
    assert forall p <- o :: p >= 0;
  }

  lemma SplitHeads(s: Pool, o: Owner, c: int, b: int, k: int, t: Pool, r: Owner)
    requires SplitTo(s, o, c, b, k, t, r)
    ensures forall h :: Head(r, h) <==> h == b || Head(o, h)
  {
    forall h ensures Head(r, h) <==> h == b || Head(o, h) {
      if h in o { assert h in r; }
    }
  }

  lemma SplitChunks(s: Pool, o: Owner, c: int, b: int, k: int, t: Pool, r: Owner)
    requires SplitTo(s, o, c, b, k, t, r) && Chunks(s, o) && ChunkOk(t, b) && ChunkOk(t, c)
    requires forall p <- o :: r[p] == b <==> Floor(p, k) == b
    requires forall p <- o :: r[p] == c <==> Floor(p, k) == c
    ensures Chunks(t, r)
  {
    hide Floor, Pow;
    SplitHeads(s, o, c, b, k, t, r);
    forall h | Head(r, h) ensures ChunkOk(t, h) {
      if h != b && h != c { assert ChunkOk(s, h); }
    }
    forall p <- r ensures Head(r, r[p]) && Holds(t, r[p], p) {
      if r[p] != b && r[p] != c {
        assert Head(o, o[p]) && Holds(s, o[p], p);
      }
    }
    forall h, p | Head(r, h) && p in r && Holds(t, h, p) ensures r[p] == h {
      if h != b && h != c {
        assert Holds(s, h, p);
      }
    }
  }

  lemma SplitListed(s: Pool, o: Owner, c: int, b: int, k: int, t: Pool, r: Owner)
    requires SplitTo(s, o, c, b, k, t, r) && Listed(s, o, {}) && 0 <= k < MAX_ORDER
    requires t.lists == s.lists[k := [b] + s.lists[k]] && t.nrFree == s.nrFree[k := s.nrFree[k] + 1]
    ensures Listed(t, r, {})
  {
    SplitHeads(s, o, c, b, k, t, r);
    assert b !in s.lists[k] by { assert !FreeHead(s, o, b, k); }
    NoDupCons(b, s.lists[k]);
    forall j, a | 0 <= j < MAX_ORDER ensures a in t.lists[j] <==> FreeHead(t, r, a, j) && a !in {} {
      assert a in s.lists[j] <==> FreeHead(s, o, a, j) && a !in {};
    }
  }

  lemma SplitCoalesced(s: Pool, o: Owner, c: int, b: int, k: int, t: Pool, r: Owner)
    requires SplitTo(s, o, c, b, k, t, r) && Coalesced(s, o, {}) && b >= 0 && k >= 0
    requires Flip(b, k) == c && forall h, j :: Head(o, h) && h >= 0 && 0 <= j && Flip(h, j) == b ==>
      Ord(s, h) != j || j != k || h == c
    ensures Coalesced(t, r, {})
  {
    hide Flip;
    SplitHeads(s, o, c, b, k, t, r);
    forall h, j | 0 <= j < MAX_ORDER - 1 && FreeHead(t, r, h, j) && h !in {} && h >= 0
      ensures !(FreeHead(t, r, Flip(h, j), j) && Flip(h, j) !in {})
    {
      if h != b {
        assert FreeHead(s, o, h, j) && h !in {};
      }
    }
  }

  lemma SplitFree(s: Pool, o: Owner, c: int, b: int, k: int, t: Pool, r: Owner)
    requires SplitTo(s, o, c, b, k, t, r) && Chunks(s, o) && Chunks(t, r)
    ensures FreePages(t, r) == FreePages(s, o) + Block(r, b)
    ensures Block(o, c) == Block(r, c) + Block(r, b)
    ensures forall h :: TakenHead(t, r, h) <==> TakenHead(s, o, h)
    ensures forall h :: TakenHead(s, o, h) && h != c ==> Ord(t, h) == Ord(s, h) && Block(r, h) == Block(o, h)
  {
    hide Floor, Pow;
    SplitHeads(s, o, c, b, k, t, r);
    assert forall p <- o :: Head(o, o[p]) && o[p] != b;
    forall p ensures p in FreePages(t, r) <==> p in FreePages(s, o) + Block(r, b) {
      if p in o { assert Head(o, o[p]) && p in r && Head(r, r[p]); }
    }
    SplitBlocks(s, o, c, b, k, t, r);
  }

  lemma SplitBlocks(s: Pool, o: Owner, c: int, b: int, k: int, t: Pool, r: Owner)
    requires SplitTo(s, o, c, b, k, t, r)
    requires forall p <- o :: o[p] != b
    ensures Block(o, c) == Block(r, c) + Block(r, b)
    ensures forall h :: h != c && h != b ==> Block(r, h) == Block(o, h)
  {
    forall p ensures p in o <==> p in r {
      assert InPool(s, p) <==> InPool(t, p);
    }
    assert o.Keys == r.Keys;
    forall h | h != c && h != b ensures Block(r, h) == Block(o, h) {
      forall p ensures p in Block(r, h) <==> p in Block(o, h) { }
    }
    forall p ensures p in Block(o, c) <==> p in Block(r, c) + Block(r, b) { }
  }

  lemma SplitUnique(s: Pool, o: Owner, c: int)
    requires Chunks(s, o) && Head(o, c) && Ord(s, c) >= 1
    ensures ChunkOk(s, c)
    ensures forall h ::
      Head(o, h) && h >= 0 && Flip(h, Ord(s, c) - 1) == Flip(c, Ord(s, c) - 1) && Ord(s, h) == Ord(s, c) - 1 ==> h == c
    ensures Flip(Flip(c, Ord(s, c) - 1), Ord(s, c) - 1) == c
  {
    SplitPair(s, o, c);
    var k := Ord(s, c) - 1;
    FlipAligned(c, k);
    forall h | Head(o, h) && h >= 0 && Flip(h, k) == Flip(c, k) && Ord(s, h) == k ensures h == c {
      assert ChunkOk(s, h);
      FlipAligned(h, k);
    }
  }

  lemma SplitFits(s: Pool, o: Owner, c: int)
    requires Chunks(s, o) && Head(o, c) && Ord(s, c) >= 1
    ensures ChunkOk(s, c) && InPool(s, Flip(c, Ord(s, c) - 1))
    ensures ChunkOk(SplitStep(s, c), c) && ChunkOk(SplitStep(s, c), Flip(c, Ord(s, c) - 1))
  {
    hide Floor, Flip, Pow, Chunks;
    SplitPair(s, o, c);
    assert Shaped(s, o) by { ChunksShaped(s, o); }
    var b := Flip(c, Ord(s, c) - 1);
    assert b != c && SplitStep(s, c).base == s.base;
    assert Ord(SplitStep(s, c), c) == Ord(s, c) - 1;
    assert Ord(SplitStep(s, c), b) == Ord(s, c) - 1;
  }

  lemma ChunksShaped(s: Pool, o: Owner)
    requires Chunks(s, o)
    ensures Shaped(s, o) && forall p <- o :: p >= 0
  {
  }

  lemma SplitClaims(s: Pool, o: Owner, c: int)
    requires Chunks(s, o) && Head(o, c) && Ord(s, c) >= 1
    ensures ChunkOk(s, c)
    ensures var k, b, r := Ord(s, c) - 1, Flip(c, Ord(s, c) - 1), SplitOwner(s, o, c);
      && b >= 0 && (forall p <- o :: r[p] == b <==> Floor(p, k) == b)
      && (forall p <- o :: r[p] == c <==> Floor(p, k) == c)
  {
    hide Floor, Flip, Pow, Chunks;
    SplitPair(s, o, c);
    ChunksShaped(s, o);
    var k, b, r := Ord(s, c) - 1, Flip(c, Ord(s, c) - 1), SplitOwner(s, o, c);
    assert !Head(o, b);
    forall p <- o ensures r[p] == b <==> Floor(p, k) == b {
      OwnerIsHead(s, o, p);
    }
  }

  lemma OwnerIsHead(s: Pool, o: Owner, p: int)
    requires Chunks(s, o) && p in o
    ensures Head(o, o[p])
  {
  }

  /** A split keeps the invariant; the upper half becomes free. */
  lemma SplitGood(s: Pool, o: Owner, c: int)
    requires Good(s, o) && TakenHead(s, o, c) && Ord(s, c) >= 1
    ensures ChunkOk(s, c) && InPool(s, Flip(c, Ord(s, c) - 1))
    ensures var t, r, b := SplitStep(s, c), SplitOwner(s, o, c), Flip(c, Ord(s, c) - 1);
      && Good(t, r) && TakenHead(t, r, c) && Ord(t, c) == Ord(s, c) - 1
      && FreePages(t, r) == FreePages(s, o) + Block(r, b)
      && Block(o, c) == Block(r, c) + Block(r, b) && b != c
      && (forall h :: TakenHead(t, r, h) <==> TakenHead(s, o, h))
      && (forall h :: TakenHead(s, o, h) && h != c ==> Ord(t, h) == Ord(s, h) && Block(r, h) == Block(o, h))
  {
    hide Floor, Flip, Pow, Listed, Coalesced, Chunks, SplitTo;
    ChunksShaped(s, o);
    SplitGives(s, o, c);
    SplitFits(s, o, c);
    SplitClaims(s, o, c);
    SplitUnique(s, o, c);
    var k, b, t, r := Ord(s, c) - 1, Flip(c, Ord(s, c) - 1), SplitStep(s, c), SplitOwner(s, o, c);
    SplitChunks(s, o, c, b, k, t, r);
    SplitListed(s, o, c, b, k, t, r);
    SplitCoalesced(s, o, c, b, k, t, r);
    SplitFree(s, o, c, b, k, t, r);
  }
}
