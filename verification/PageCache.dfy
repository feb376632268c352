/**
The page cache of the file server (`fs_page_cache.c`): two LRU lists and pinned pages over a
backing store, with three write strategies.

A cached page is named by one number that stands for its inode and page index; the pages of one
file have consecutive names. Get, modify and put of a page form one sequential transaction.
*/
module PageCache {
  import opened Lists

  const BLOCK := 512              // CACHED_BLOCK_SIZE
  const BLOCKS := 8               // BLOCK_PER_PAGE
  const PAGE := 4096              // CACHED_PAGE_SIZE
  const ACTIVE_MAX := 16384
  const INACTIVE_MAX := 16384
  const MAX_PINNED := 512
  const WHOLE := -1               // page_block_idx for a whole page
  const NOTHING := -2

  type Content = seq<seq<int>>

  datatype Strategy = Direct | WriteThrough | WriteBack

  datatype CachedPage = CachedPage(content: Content, dirty: seq<bool>)

  ghost predicate IsContent(d: Content) {
    |d| == BLOCKS && forall j :: 0 <= j < BLOCKS ==> |d[j]| == BLOCK
  }

  predicate Touches(b: int, j: int) { b == WHOLE || b == j }

  /** The clean blocks of a page are those of the file, apart from what is being modified. */
  ghost predicate Coherent(p: CachedPage, d: Content, b: int) {
    && IsContent(p.content) && IsContent(d) && |p.dirty| == BLOCKS
    && forall j :: 0 <= j < BLOCKS && !p.dirty[j] && !Touches(b, j) ==> p.content[j] == d[j]
  }

  ghost predicate Clean(p: CachedPage) { forall j :: 0 <= j < |p.dirty| ==> !p.dirty[j] }

  type Pages = map<int, CachedPage>
  type Store = map<int, Content>

  /** Every cached page is coherent; `b` of page `k` is being modified. */
  ghost predicate AllCoherent(pages: Pages, disk: Store, k: int, b: int) {
    && (forall x <- disk :: IsContent(disk[x]))
    && forall x <- pages :: x in disk && Coherent(pages[x], disk[x], if x == k then b else NOTHING)
  }

  ghost predicate AllClean(pages: Pages) { forall x <- pages :: Clean(pages[x]) }

  /** A cached page is in exactly one of the three lists. */
  ghost predicate Placed(keys: set<int>, active: seq<int>, inactive: seq<int>, pinned: seq<int>) {
    && NoDup(active) && NoDup(inactive) && NoDup(pinned)
    && (forall x <- active :: x !in inactive && x !in pinned) && (forall x <- inactive :: x !in pinned)
    && forall x :: x in keys <==> x in active || x in inactive || x in pinned
  }

  /** The file as users see it. */
  ghost function Logical(pages: Pages, disk: Store, x: int): Content
    requires x in disk
  {
    if x in pages then pages[x].content else disk[x]
  }

  ghost predicate SameFile(pages: Pages, disk: Store, pages': Pages, disk': Store) {
    disk'.Keys == disk.Keys && forall x <- disk :: Logical(pages', disk', x) == Logical(pages, disk, x)
  }

  lemma SameFileTrans(p: Pages, d: Store, p': Pages, d': Store, p'': Pages, d'': Store)
    requires SameFile(p, d, p', d') && SameFile(p', d', p'', d'')
    ensures SameFile(p, d, p'', d'')
  {
  }

  class Cache {
    var strategy: Strategy
    var pages: Pages
    var active: seq<int>
    var inactive: seq<int>
    var pinned: seq<int>
    var disk: Store

    ghost predicate Bounded() reads this {
      |active| <= ACTIVE_MAX && |inactive| <= INACTIVE_MAX && |pinned| <= MAX_PINNED
    }

    /** The invariant while block `b` of page `k` is being modified. */
    ghost predicate During(k: int, b: int) reads this {
      && AllCoherent(pages, disk, k, b) && Placed(pages.Keys, active, inactive, pinned)
      && (strategy != WriteBack ==> AllClean(pages))
    }

    ghost predicate Valid() reads this {
      During(0, NOTHING) && Bounded()
    }

    constructor (strategy: Strategy, disk: Store)
      requires forall x <- disk :: IsContent(disk[x])
      ensures Valid() && this.disk == disk && this.strategy == strategy && pages == map[]
    {
      this.strategy, this.disk := strategy, disk;
      pages, active, inactive, pinned := map[], [], [], [];
    }

    /** `flush_single_block` */
    method FlushBlock(k: int, j: int)
      requires k in pages && k in disk && Coherent(pages[k], disk[k], NOTHING) && 0 <= j < BLOCKS
      modifies `pages, `disk
      ensures k in disk && disk == old(disk)[k := old(disk)[k][j := old(pages)[k].content[j]]]
      ensures pages == old(pages)[k := old(pages)[k].(dirty := old(pages)[k].dirty[j := false])]
      ensures Coherent(pages[k], disk[k], NOTHING)
    {
      if pages[k].dirty[j] {
        disk := disk[k := disk[k][j := pages[k].content[j]]];
        pages := pages[k := pages[k].(dirty := pages[k].dirty[j := false])];
      } else {
        assert pages[k].dirty[j := false] == pages[k].dirty && disk[k][j := pages[k].content[j]] == disk[k];
      }
    }

    /** `flush_single_page` */
    method FlushPage(k: int)
      requires k in pages && k in disk && Coherent(pages[k], disk[k], NOTHING)
      modifies `pages, `disk
      ensures k in disk && disk == old(disk)[k := disk[k]]
      ensures pages.Keys == old(pages).Keys && pages == old(pages)[k := pages[k]]
        && pages[k].content == old(pages)[k].content
      ensures Coherent(pages[k], disk[k], NOTHING) && Clean(pages[k])
    {
      var j := 0;
      while j < BLOCKS
        invariant 0 <= j <= BLOCKS && k in pages && k in disk
        invariant disk == old(disk)[k := disk[k]] && pages == old(pages)[k := pages[k]]
          && pages[k].content == old(pages)[k].content
        invariant Coherent(pages[k], disk[k], NOTHING)
        invariant forall i :: 0 <= i < j ==> !pages[k].dirty[i]
      {
        FlushBlock(k, j);
        j := j + 1;
      }
    }

    /** `flush_single_page` as a step of the cache, while block `b` of page `m` is modified */
    method Flush(k: int, ghost m: int, ghost b: int)
      requires During(m, b) && k in pages && (k != m || b == NOTHING)
      modifies `pages, `disk
      ensures During(m, b) && pages.Keys == old(pages).Keys && SameFile(old(pages), old(disk), pages, disk)
      ensures Clean(pages[k]) && (forall x <- pages :: x != k ==> pages[x] == old(pages)[x])
      ensures forall x <- disk :: x != k ==> disk[x] == old(disk)[x]
    {
      hide Coherent, Placed, IsContent;
      CoherentAt(pages, disk, m, b, k);
      FlushPage(k);
      FlushKeeps(old(pages), old(disk), pages, disk, m, b, k);
    }

    /** `flush_and_free_page`: the page leaves its list and the cache. */
    method FlushAndFree(k: int, ghost m: int, ghost b: int)
      requires During(m, b) && k in pages && (k != m || b == NOTHING)
      modifies `pages, `disk, `active, `inactive, `pinned
      ensures During(m, b) && pages.Keys == old(pages).Keys - {k} && SameFile(old(pages), old(disk), pages, disk)
      ensures forall x <- pages :: pages[x] == old(pages)[x]
      ensures forall x <- disk :: x != k ==> disk[x] == old(disk)[x]
      ensures active == Without(old(active), k) && inactive == Without(old(inactive), k)
        && pinned == Without(old(pinned), k)
    {
      hide NoDup, Without, Coherent, Placed;
      Flush(k, m, b);
      CleanIsDisk(pages, disk, m, b, k);
      Unplaced(pages.Keys, active, inactive, pinned, k);
      InOneList(pages.Keys, active, inactive, pinned, k);
      if k in active {
        active := Without(active, k);
      } else if k in inactive {
        inactive := Without(inactive, k);
      } else {
        pinned := Without(pinned, k);
      }
      pages := pages - {k};
    }

    /** `find_or_new_page`: a missing page joins the tail of the inactive list, whose head is evicted
    when it overflows; then it is filled from the file. */
    method FindOrNew(k: int) returns (isNew: bool)
      requires Valid() && k in disk
      modifies `pages, `disk, `active, `inactive, `pinned
      ensures Valid() && k in pages && isNew == (k !in old(pages)) && SameFile(old(pages), old(disk), pages, disk)
      ensures !isNew ==> pages == old(pages) && disk == old(disk) && active == old(active) && inactive == old(inactive)
      ensures isNew ==> active == old(active) && inactive == Joined(old(inactive), k)
      ensures forall x <- pages :: x != k ==> x in old(pages) && pages[x] == old(pages)[x]
      ensures forall x <- old(pages) ::
        x in pages || (isNew && |old(inactive)| == INACTIVE_MAX && x == old(inactive)[0])
      ensures pinned == old(pinned)
    {
      hide NoDup, Without, Coherent, IsContent, Placed, AllCoherent, AllClean, SameFile, Joined, SameElsewhere;
      if k in pages {
        SameFileSelf(pages, disk);
        return false;
      }
      isNew := true;
      NewPage(k);
      ghost var p, d := pages, disk;
      FillCoherent(pages, disk, k);
      pages := pages[k := CachedPage(disk[k], pages[k].dirty)];
      assert pages.Keys == p.Keys;
      FillSame(old(pages), old(disk), p, d, k);
      FillClean(p, d, k);
    }

    /** `new_page` at the tail of the inactive list, and the eviction of its head when it is too long */
    method NewPage(k: int)
      requires Valid() && k in disk && k !in pages
      modifies `pages, `disk, `active, `inactive, `pinned
      ensures During(k, WHOLE) && Bounded() && k in pages && SameElsewhere(old(pages), old(disk), pages, disk, k)
      ensures active == old(active) && inactive == Joined(old(inactive), k) && pinned == old(pinned)
      ensures forall x <- pages :: x != k ==> x in old(pages) && pages[x] == old(pages)[x]
      ensures forall x <- old(pages) :: x in pages || (|old(inactive)| == INACTIVE_MAX && x == old(inactive)[0])
    {
      hide NoDup, Without, Coherent, IsContent, Placed, AllCoherent;
      AddPlaced(pages.Keys, active, inactive, pinned, k);
      AddCoherent(pages, disk, k);
      pages := pages[k := CachedPage(seq(BLOCKS, _ => seq(BLOCK, _ => 0)), seq(BLOCKS, _ => false))];
      inactive := inactive + [k];
      assert pages.Keys == old(pages).Keys + {k};
      if |inactive| > INACTIVE_MAX {
        InactiveHead(pages.Keys, active, inactive, pinned);
        FlushAndFree(inactive[0], k, WHOLE);
      }
    }

    /** `boost_page`: to the tail of the active list, whose head may fall back to the inactive list.
    The inactive list has then lost one page and gained one, so it cannot overflow. */
    method Boost(k: int)
      requires Valid() && k in pages && k !in pinned
      modifies `active, `inactive
      ensures Valid()
      ensures k in old(active) ==> active == Without(old(active), k) + [k] && inactive == old(inactive)
      ensures k !in old(active) && |old(active)| < ACTIVE_MAX ==>
        active == old(active) + [k] && inactive == Without(old(inactive), k)
      ensures k !in old(active) && |old(active)| == ACTIVE_MAX ==>
        active == old(active)[1..] + [k] && inactive == Without(old(inactive), k) + [old(active)[0]]
    {
      hide NoDup, Without, AllCoherent;
      BoostPlaces(pages.Keys, active, inactive, pinned, k);
      if k in active {
        active := Without(active, k) + [k];
      } else {
        inactive := Without(inactive, k);
        active := active + [k];
        if |active| > ACTIVE_MAX {
          inactive := inactive + [active[0]];
          active := active[1..];
          if |inactive| > INACTIVE_MAX { assert false; }
        }
      }
    }

    /** `page_cache_get_block_or_page` on a page that is not pinned: what it points to is the file. */
    method Get(k: int) returns (content: Content)
      requires Valid() && k in disk && k !in pinned
      modifies `pages, `disk, `active, `inactive, `pinned
      ensures Valid() && k in pages && pinned == old(pinned) && SameFile(old(pages), old(disk), pages, disk)
      ensures content == Logical(pages, disk, k) == Logical(old(pages), old(disk), k) && IsContent(content)
      ensures if k in old(pages) then active != [] && active[|active| - 1] == k
        else inactive != [] && inactive[|inactive| - 1] == k
    {
      hide NoDup, Without, Placed;
      var isNew := FindOrNew(k);
      if !isNew { Boost(k); }
      content := pages[k].content;
    }

    /** The caller writes through the pointer it got, into block `b` (or the whole page). */
    method Modify(k: int, b: int, content: Content)
      requires Valid() && k in pages && IsContent(content) && WHOLE <= b < BLOCKS
      requires forall j :: 0 <= j < BLOCKS && !Touches(b, j) ==> content[j] == pages[k].content[j]
      modifies `pages
      ensures During(k, b) && Bounded() && pages == old(pages)[k := old(pages)[k].(content := content)]
    {
      hide NoDup, Placed;
      ghost var keys := pages.Keys;
      pages := pages[k := pages[k].(content := content)];
      assert pages.Keys == keys;
    }

    /** `set_block_or_page_dirty` with true */
    method SetDirty(k: int, b: int)
      requires k in pages && |pages[k].dirty| == BLOCKS && WHOLE <= b < BLOCKS
      modifies `pages
      ensures Dirtied(old(pages), pages, k, b)
    {
      if b != WHOLE {
        pages := pages[k := pages[k].(dirty := pages[k].dirty[b := true])];
      } else {
        var j := 0;
        while j < BLOCKS
          invariant 0 <= j <= BLOCKS && k in pages && pages == old(pages)[k := pages[k]]
            && pages.Keys == old(pages).Keys
          invariant pages[k].content == old(pages)[k].content && |pages[k].dirty| == BLOCKS
          invariant forall i :: 0 <= i < j ==> pages[k].dirty[i]
          invariant forall i :: j <= i < BLOCKS ==> pages[k].dirty[i] == old(pages)[k].dirty[i]
        {
          pages := pages[k := pages[k].(dirty := pages[k].dirty[j := true])];
          j := j + 1;
        }
      }
    }

    /** `page_cache_put_block_or_page` after a write: the modified block is marked, or written
    through, and in DIRECT mode the page is dropped. */
    method PutWrite(k: int, b: int)
      requires During(k, b) && Bounded() && k in pages && WHOLE <= b < BLOCKS
      modifies `pages, `disk, `active, `inactive, `pinned
      ensures Valid() && SameFile(old(pages), old(disk), pages, disk)
      ensures k !in old(pinned) ==> pinned == old(pinned)
      ensures k in pages <==> strategy != Direct
      ensures strategy == WriteBack ==> disk == old(disk) && Dirtied(old(pages), pages, k, b)
    {
      hide NoDup, Without, Placed, AllCoherent, AllClean, SameFile, Coherent;
      ghost var p, d := pages, disk;
      FlagCount(pages, disk, k, b);
      SetDirty(k, b);
      DirtyCoherent(p, disk, pages, k, b);
      if strategy == WriteBack { return; }
      FlushWritten(k, b, p);
      if strategy == Direct {
        NoLonger(active, inactive, pinned, k);
        if k !in pinned { WithoutAbsent(pinned, k); }
        ghost var p', d' := pages, disk;
        FlushAndFree(k, 0, NOTHING);
        SameFileTrans(p, d, p', d', pages, disk);
      }
    }

    /** A written block or page goes to the file at once. */
    method FlushWritten(k: int, b: int, ghost p: Pages)
      requires AllCoherent(p, disk, k, b) && AllClean(p) && k in p && WHOLE <= b < BLOCKS
      requires k in pages && k in disk && Coherent(pages[k], disk[k], NOTHING) && Dirtied(p, pages, k, b)
      modifies `pages, `disk
      ensures AllCoherent(pages, disk, 0, NOTHING) && AllClean(pages) && pages.Keys == p.Keys
        && SameFile(p, old(disk), pages, disk)
    {
      hide AllCoherent, SameFile;
      if b != WHOLE { FlushBlock(k, b); } else { FlushPage(k); }
      ThroughCoherent(p, old(disk), pages, disk, k, b);
    }

    /** Put after a read changes nothing: one whole read of a page. */
    method ReadPage(k: int) returns (content: Content)
      requires Valid() && k in disk && k !in pinned
      modifies `pages, `disk, `active, `inactive, `pinned
      ensures Valid() && pinned == old(pinned) && SameFile(old(pages), old(disk), pages, disk)
      ensures content == Logical(old(pages), old(disk), k) && IsContent(content)
    {
      content := Get(k);
    }

    /** Get, modify and put one block: in the file, that block changes and nothing else. */
    method WriteBlock(k: int, j: int, off: int, bytes: seq<int>)
      requires Valid() && k in disk && k !in pinned && 0 <= j < BLOCKS && 0 <= off && off + |bytes| <= BLOCK
      modifies `pages, `disk, `active, `inactive, `pinned
      ensures Valid() && pinned == old(pinned) && disk.Keys == old(disk).Keys
      ensures IsContent(Logical(old(pages), old(disk), k))
      ensures Logical(pages, disk, k)
        == Logical(old(pages), old(disk), k)[j := Spliced(Logical(old(pages), old(disk), k)[j], off, bytes)]
      ensures forall x <- disk :: x != k ==> Logical(pages, disk, x) == Logical(old(pages), old(disk), x)
    {
      hide NoDup, Without, Placed, AllCoherent, Coherent;
      var content := Get(k);
      ghost var p, d := pages, disk;
      content := content[j := content[j][..off] + bytes + content[j][off + |bytes|..]];
      CachedContent(pages, disk, k);
      Modify(k, j, content);
      PutWrite(k, j);
    }

    /** `page_cache_pin_single_page` */
    method Pin(k: int) returns (r: int)
      requires Valid() && k in disk
      modifies `pages, `disk, `active, `inactive, `pinned
      ensures Valid() && SameFile(old(pages), old(disk), pages, disk)
      ensures r == 0 <==> old(|pinned|) != MAX_PINNED
      ensures r == 0 ==> pinned == if k in old(pinned) then old(pinned) else old(pinned) + [k]
      ensures r != 0 ==> pages == old(pages) && disk == old(disk) && pinned == old(pinned)
    {
      hide NoDup, Without, AllCoherent;
      if |pinned| == MAX_PINNED { return -1; }
      var isNew := FindOrNew(k);
      if k in pinned { return 0; }
      PinPlaces(pages.Keys, active, inactive, pinned, k);
      if k in active { active := Without(active, k); } else { inactive := Without(inactive, k); }
      pinned := pinned + [k];
      return 0;
    }

    /** `page_cache_unpin_single_page` */
    method Unpin(k: int) returns (r: int)
      requires Valid()
      modifies `pages, `disk, `active, `inactive, `pinned
      ensures Valid() && SameFile(old(pages), old(disk), pages, disk)
      ensures (r == 0 <==> k in old(pinned)) && (r == 0 ==> pages.Keys == old(pages).Keys - {k})
      ensures r != 0 ==> pages == old(pages) && disk == old(disk)
      ensures pinned == Without(old(pinned), k) && active == old(active) && inactive == old(inactive)
    {
      hide NoDup, Without, AllCoherent;
      if k !in pages || k !in pinned {
        WithoutAbsent(pinned, k);
        return -1;
      }
      InOneList(pages.Keys, active, inactive, pinned, k);
      NoLonger(active, inactive, pinned, k);
      FlushAndFree(k, 0, NOTHING);
      return 0;
    }

    /** `page_cache_evict_single_page` */
    method Evict(k: int) returns (r: int)
      requires Valid()
      modifies `pages, `disk, `active, `inactive, `pinned
      ensures Valid() && SameFile(old(pages), old(disk), pages, disk)
      ensures (r == 0 <==> k in old(pages)) && pages.Keys == old(pages).Keys - {k}
      ensures forall x <- pages :: pages[x] == old(pages)[x]
    {
      hide NoDup, Without, AllCoherent, Placed;
      if k !in pages { return -1; }
      NoLonger(active, inactive, pinned, k);
      FlushAndFree(k, 0, NOTHING);
      return 0;
    }

    /** `page_cache_flush_block_or_page` */
    method FlushOne(k: int, b: int) returns (r: int)
      requires Valid() && WHOLE <= b < BLOCKS
      modifies `pages, `disk
      ensures Valid() && SameFile(old(pages), old(disk), pages, disk) && (r == 0 <==> k in old(pages))
      ensures r == 0 ==> k in pages && Flushed(old(pages), old(disk), pages, disk, k, b)
      ensures r != 0 ==> pages == old(pages) && disk == old(disk)
    {
      hide NoDup, Placed, AllCoherent, SameFile;
      if k !in pages {
        SameFileSelf(pages, disk);
        return -1;
      }
      CoherentAt(pages, disk, 0, NOTHING, k);
      if b != WHOLE { FlushBlock(k, b); } else { FlushPage(k); }
      FlushKeeps(old(pages), old(disk), pages, disk, 0, NOTHING, k);
      FlushSame(old(pages), old(disk), pages, disk, k);
      assert pages.Keys == old(pages).Keys;
      return 0;
    }

    /** One loop of `write_back_all_pages` */
    method FlushList(l: seq<int>)
      requires Valid() && forall x <- l :: x in pages
      modifies `pages, `disk
      ensures Valid() && pages.Keys == old(pages).Keys && SameFile(old(pages), old(disk), pages, disk)
      ensures forall x <- pages :: x in l || Clean(old(pages)[x]) ==> Clean(pages[x])
    {
      hide NoDup, Placed, AllCoherent, Clean, SameFile;
      SameFileSelf(pages, disk);
      var i := 0;
      while i < |l|
        invariant 0 <= i <= |l| && Valid() && pages.Keys == old(pages).Keys
          && SameFile(old(pages), old(disk), pages, disk)
        invariant forall x <- pages :: x in l[..i] || Clean(old(pages)[x]) ==> Clean(pages[x])
      {
        ghost var p, d := pages, disk;
        assert l[i] in l;
        Flush(l[i], 0, NOTHING);
        SameFileTrans(old(pages), old(disk), p, d, pages, disk);
        assert l[..i + 1] == l[..i] + [l[i]];
        i := i + 1;
      }
      assert l[..i] == l;
    }

    /** `write_back_all_pages` */
    method WriteBackAll()
      requires Valid()
      modifies `pages, `disk
      ensures Valid() && AllClean(pages) && pages.Keys == old(pages).Keys
        && SameFile(old(pages), old(disk), pages, disk)
      ensures forall x <- disk :: disk[x] == Logical(pages, disk, x)
    {
      hide NoDup, Clean, AllCoherent, SameFile;
      FlushList(active);
      ghost var p1, d1 := pages, disk;
      FlushList(inactive);
      ghost var p2, d2 := pages, disk;
      SameFileTrans(old(pages), old(disk), p1, d1, p2, d2);
      FlushList(pinned);
      SameFileTrans(old(pages), old(disk), p2, d2, pages, disk);
      forall x <- pages
        ensures Clean(pages[x]) && x in disk
          && pages[x].content == disk[x]
      {
        CleanIsDisk(pages, disk, 0, NOTHING, x);
      }
    }

    /** `page_cache_switch_strategy`: leaving WRITE_BACK writes everything back first. */
    method SwitchStrategy(s: Strategy)
      requires Valid()
      modifies this
      ensures Valid() && strategy == s && SameFile(old(pages), old(disk), pages, disk)
      ensures s != old(strategy) ==> AllClean(pages)
    {
      hide NoDup, AllCoherent, Placed;
      if strategy == s { return; }
      if strategy == WriteBack { WriteBackAll(); }
      strategy := s;
    }
  }

  /** `memcpy` into a block. */
  ghost function Spliced(block: seq<int>, off: int, bytes: seq<int>): seq<int>
    requires 0 <= off && off + |bytes| <= |block|
  {
    block[..off] + bytes + block[off + |bytes|..]
  }

  /** The file is the same but for page `k`, and that is still as it was on disk. */
  ghost predicate SameElsewhere(pages: Pages, disk: Store, pages': Pages, disk': Store, k: int) {
    && disk'.Keys == disk.Keys && k in disk && disk'[k] == disk[k]
    && forall x <- disk :: x != k ==> Logical(pages', disk', x) == Logical(pages, disk, x)
  }

  lemma FillSame(pages: Pages, disk: Store, p: Pages, d: Store, k: int)
    requires SameElsewhere(pages, disk, p, d, k) && k in p && k !in pages && k in d
    ensures SameFile(pages, disk, p[k := CachedPage(d[k], p[k].dirty)], d)
  {
  }

  lemma FillClean(p: Pages, d: Store, k: int)
    requires k in p && k in d
    ensures AllClean(p) ==> AllClean(p[k := CachedPage(d[k], p[k].dirty)])
  {
  }

  /** The inactive list after a new page joins; a full list loses its head. */
  ghost function Joined(l: seq<int>, k: int): seq<int> {
    if |l| < INACTIVE_MAX then l + [k] else (l + [k])[1..]
  }

  lemma FlagCount(pages: Pages, disk: Store, k: int, b: int)
    requires AllCoherent(pages, disk, k, b) && k in pages
    ensures |pages[k].dirty| == BLOCKS
  {
  }

  lemma CachedContent(pages: Pages, disk: Store, k: int)
    requires AllCoherent(pages, disk, 0, NOTHING) && k in pages
    ensures k in disk && IsContent(pages[k].content)
  {
  }

  lemma SameFileSelf(pages: Pages, disk: Store)
    ensures SameFile(pages, disk, pages, disk)
  {
  }

  lemma PinPlaces(keys: set<int>, active: seq<int>, inactive: seq<int>, pinned: seq<int>, k: int)
    requires Placed(keys, active, inactive, pinned) && k in keys && k !in pinned
    ensures k in active ==> Placed(keys, Without(active, k), inactive, pinned + [k]) && |Without(active, k)| <= |active|
    ensures k !in active ==>
      Placed(keys, active, Without(inactive, k), pinned + [k]) && |Without(inactive, k)| <= |inactive|
  {
    hide NoDup, Without;
    WithoutIs(active, k);
    WithoutIs(inactive, k);
    NoDupSnoc(pinned, k);
  }

  lemma NoLonger(active: seq<int>, inactive: seq<int>, pinned: seq<int>, k: int)
    ensures |Without(active, k)| <= |active| && |Without(inactive, k)| <= |inactive| && |Without(pinned, k)| <= |pinned|
  {
    WithoutShorter(active, k);
    WithoutShorter(inactive, k);
    WithoutShorter(pinned, k);
  }

  lemma BoostPlaces(keys: set<int>, active: seq<int>, inactive: seq<int>, pinned: seq<int>, k: int)
    requires Placed(keys, active, inactive, pinned) && k in keys && k !in pinned
    ensures k in active ==>
      Placed(keys, Without(active, k) + [k], inactive, pinned) && |Without(active, k)| == |active| - 1
    ensures k !in active ==>
      Placed(keys, active + [k], Without(inactive, k), pinned) && |Without(inactive, k)| == |inactive| - 1
    ensures k !in active && active != [] ==>
      Placed(keys, (active + [k])[1..], Without(inactive, k) + [(active + [k])[0]], pinned)
    ensures k !in active && active != [] ==> k in (active + [k])[1..]
  {
    hide NoDup, Without;
    WithoutIs(active, k);
    WithoutIs(inactive, k);
    if k in active {
      NoDupSnoc(Without(active, k), k);
    } else {
      NoDupSnoc(active, k);
      var a := active + [k];
      if active != [] {
        assert a[0] == active[0] && a[0] in active;
        NoDupTail(a);
        NoDupSnoc(Without(inactive, k), a[0]);
        assert a[1..][|a| - 2] == k;
      }
    }
  }

  /** Block `b` of page `k` is marked as dirty; nothing else changes. */
  ghost predicate Dirtied(p: Pages, p': Pages, k: int, b: int) {
    && k in p && k in p' && p'.Keys == p.Keys && p' == p[k := p'[k]] && p'[k].content == p[k].content
    && |p[k].dirty| == |p'[k].dirty| == BLOCKS
    && forall j :: 0 <= j < BLOCKS ==> (p'[k].dirty[j] <==> Touches(b, j) || p[k].dirty[j])
  }

  /** Marking the modified block dirty makes the page coherent again. */
  lemma DirtyCoherent(p: Pages, disk: Store, p': Pages, k: int, b: int)
    requires AllCoherent(p, disk, k, b) && Dirtied(p, p', k, b)
    ensures k in disk && AllCoherent(p', disk, 0, NOTHING) && Coherent(p'[k], disk[k], NOTHING)
      && SameFile(p, disk, p', disk)
  {
  }

  /** Writing the modified block through leaves a clean cache. */
  lemma ThroughCoherent(p: Pages, d: Store, p': Pages, d': Store, k: int, b: int)
    requires AllCoherent(p, d, k, b) && AllClean(p) && k in p && k in p' && k in d' && WHOLE <= b < BLOCKS
    requires d' == d[k := d'[k]] && p'.Keys == p.Keys && (forall x <- p :: x != k ==> p'[x] == p[x])
      && p'[k].content == p[k].content
    requires Coherent(p'[k], d'[k], NOTHING) && forall j :: 0 <= j < BLOCKS ==> !p'[k].dirty[j]
    ensures AllCoherent(p', d', 0, NOTHING) && AllClean(p') && SameFile(p, d, p', d')
  {
  }

  lemma CoherentAt(pages: Pages, disk: Store, m: int, b: int, k: int)
    requires AllCoherent(pages, disk, m, b) && k in pages && (k != m || b == NOTHING)
    ensures k in disk && Coherent(pages[k], disk[k], NOTHING)
  {
  }

  /** Writing one page back keeps the rest. */
  lemma FlushKeeps(p: Pages, d: Store, p': Pages, d': Store, m: int, b: int, k: int)
    requires AllCoherent(p, d, m, b) && k in p && (k != m || b == NOTHING) && k in d && k in d' && k in p'
    requires d' == d[k := d'[k]] && p' == p[k := p'[k]] && p'[k].content == p[k].content
      && Coherent(p'[k], d'[k], NOTHING)
    ensures AllCoherent(p', d', m, b)
  {
  }

  /** The blocks of page `k` that `b` names are clean and in the file; the others and all other pages
  are as before. */
  ghost predicate Flushed(p: Pages, d: Store, p': Pages, d': Store, k: int, b: int) {
    && k in p && k in p' && k in d && k in d' && p' == p[k := p'[k]] && d' == d[k := d'[k]]
       && p'[k].content == p[k].content
    && |p'[k].content| == |p'[k].dirty| == |p[k].dirty| == |d'[k]| == |d[k]| == BLOCKS
    && forall j :: 0 <= j < BLOCKS ==>
        if Touches(b, j) then !p'[k].dirty[j] && d'[k][j] == p[k].content[j]
        else p'[k].dirty[j] == p[k].dirty[j] && d'[k][j] == d[k][j]
  }

  lemma FlushSame(p: Pages, d: Store, p': Pages, d': Store, k: int)
    requires k in p && k in d && k in d' && k in p' && d' == d[k := d'[k]] && p' == p[k := p'[k]]
      && p'[k].content == p[k].content
    ensures SameFile(p, d, p', d')
  {
  }

  /** A clean page holds what the file holds. */
  lemma CleanIsDisk(pages: Pages, disk: Store, m: int, b: int, k: int)
    requires AllCoherent(pages, disk, m, b) && k in pages && (k != m || b == NOTHING) && Clean(pages[k])
    ensures k in disk && pages[k].content == disk[k]
  {
  }

  lemma Unplaced(keys: set<int>, active: seq<int>, inactive: seq<int>, pinned: seq<int>, k: int)
    requires Placed(keys, active, inactive, pinned)
    ensures Placed(keys - {k}, Without(active, k), Without(inactive, k), Without(pinned, k))
  {
    hide NoDup, Without;
    WithoutIs(active, k);
    WithoutIs(inactive, k);
    WithoutIs(pinned, k);
  }

  lemma InOneList(keys: set<int>, active: seq<int>, inactive: seq<int>, pinned: seq<int>, k: int)
    requires Placed(keys, active, inactive, pinned) && k in keys
    ensures k in active || k in inactive || k in pinned
    ensures k in active ==> Without(inactive, k) == inactive && Without(pinned, k) == pinned
    ensures k in inactive ==> k !in active && Without(active, k) == active && Without(pinned, k) == pinned
    ensures k in pinned ==>
      k !in active && k !in inactive && Without(active, k) == active && Without(inactive, k) == inactive
  {
    hide NoDup, Without;
    if k !in active { WithoutAbsent(active, k); }
    if k !in inactive { WithoutAbsent(inactive, k); }
    if k !in pinned { WithoutAbsent(pinned, k); }
  }

  lemma AddPlaced(keys: set<int>, active: seq<int>, inactive: seq<int>, pinned: seq<int>, k: int)
    requires Placed(keys, active, inactive, pinned) && k !in keys
    ensures Placed(keys + {k}, active, inactive + [k], pinned)
  {
    hide NoDup;
    NoDupSnoc(inactive, k);
  }

  lemma AddCoherent(pages: Pages, disk: Store, k: int)
    requires AllCoherent(pages, disk, 0, NOTHING) && k !in pages && k in disk
    ensures AllCoherent(pages[k := CachedPage(seq(BLOCKS, _ => seq(BLOCK, _ => 0)), seq(BLOCKS, _ => false))],
      disk, k, WHOLE)
  {
  }

  lemma FillCoherent(pages: Pages, disk: Store, k: int)
    requires AllCoherent(pages, disk, k, WHOLE) && k in pages
    ensures k in disk && AllCoherent(pages[k := CachedPage(disk[k], pages[k].dirty)], disk, 0, NOTHING)
  {
  }

  /** The head of an overflowing inactive list is not the page just added. */
  lemma InactiveHead(keys: set<int>, active: seq<int>, inactive: seq<int>, pinned: seq<int>)
    requires Placed(keys, active, inactive, pinned) && |inactive| >= 2
    ensures inactive[0] in keys && inactive[0] != inactive[|inactive| - 1]
    ensures Without(inactive, inactive[0]) == inactive[1..] && inactive[|inactive| - 1] in inactive[1..]
    ensures Without(active, inactive[0]) == active && Without(pinned, inactive[0]) == pinned
  {
    var x := inactive[0];
    assert x in inactive;
    assert inactive[1..][|inactive| - 2] == inactive[|inactive| - 1];
    InOneList(keys, active, inactive, pinned, x);
  }
}
