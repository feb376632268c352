/** The translation table itself: walks, mapping and unmapping on table pages. */
module PageTable {
  import opened PageTableModel
  import opened PageTableSpec

  const PAGE_SIZE := 4096
  const ENOMAPPING := 203
  const NORMAL_PTP := 0

  /** The `VMR_*` bits of a request. */
  datatype Prot = Prot(read: bool, write: bool, exec: bool, device: bool, nocache: bool, nonsecure: bool)

  datatype Kind = UserPte | KernelPte

  /** `__vmr_prot_to_ap` */
  function ProtToAp(p: Prot): nat {
    if p.read && !p.write then 3 else if p.write then 1 else 0
  }

  /** `__ap_to_vmr_prot`: readable, writable */
  function ApToProt(ap: nat): (bool, bool) {
    if ap == 3 then (true, false) else if ap == 1 then (true, true) else (false, false)
  }

  /** `set_pte_flags` on a zeroed descriptor */
  function PteFlags(p: Prot, kind: Kind): Attr {
    Attr(
      ProtToAp(p),
      if kind.UserPte? || !p.exec then 1 else 0,
      if kind.KernelPte? || !p.exec then 1 else 0,
      1,
      1,
      if p.device then 0 else 3,
      if p.device then 0 else if p.nocache then 3 else 4,
      if p.nonsecure then 1 else 0)
  }

  // ---- what the hardware reads in a descriptor ----

  datatype MemoryType = Device | NormalNoCache | Normal | Unused

  /** The rights of user and kernel on a page, and how the page is accessed. */
  datatype Access = Access(
    userRead: bool, userWrite: bool, userExec: bool,
    kernelRead: bool, kernelWrite: bool, kernelExec: bool,
    memory: MemoryType, shareable: bool, nonsecure: bool, accessed: bool, global: bool)

  /** Bit 0 of `ap` admits the user and bit 1 forbids writing; the execute-never bits forbid execution at
  their level; `index` selects one of the memory types the kernel has set up. */
  function Decode(a: Attr): Access {
    Access(
      a.ap % 2 == 1,
      a.ap % 2 == 1 && a.ap / 2 == 0,
      a.uxn == 0,
      true,
      a.ap / 2 == 0,
      a.pxn == 0,
      if a.index == 0 then Device else if a.index == 3 then NormalNoCache else if a.index == 4 then Normal else Unused,
      a.sh != 0,
      a.ns == 1,
      a.af == 1,
      a.ng == 0)
  }

  /** What a mapping request asks for. */
  ghost predicate Grants(x: Access, p: Prot, kind: Kind) {
    && (x.userRead <==> p.read || p.write) && (x.userWrite <==> p.write) && (x.userExec <==> kind.UserPte? && p.exec)
    && x.kernelRead && (x.kernelWrite <==> p.write || !p.read) && (x.kernelExec <==> kind.KernelPte? && p.exec)
    && (x.memory == Device <==> p.device) && (x.memory == NormalNoCache <==> p.nocache && !p.device)
    && (x.memory == Normal <==> !p.nocache && !p.device)
    && (x.shareable <==> !p.device) && (x.nonsecure <==> p.nonsecure) && x.accessed && !x.global
  }

  lemma FlagsGrant(p: Prot, kind: Kind)
    ensures Grants(Decode(PteFlags(p, kind)), p, kind)
  {
  }

  /** `len` in whole pages, rounded up */
  function PageCount(len: nat): (n: nat)
    ensures n * PAGE_SIZE >= len && (n > 0 ==> (n - 1) * PAGE_SIZE < len)
  {
    len / PAGE_SIZE + (if len % PAGE_SIZE > 0 then 1 else 0)
  }

  /** There is always another page to allocate. */
  lemma FreshPage(s: set<nat>) returns (n: nat)
    ensures forall x <- s :: x < n
  {
    if s == {} {
      n := 0;
    } else {
      var x :| x in s;
      var b := FreshPage(s - {x});
      n := if x < b then b else x + 1;
      assert forall y <- s :: y == x || y in s - {x};
    }
  }

  class PageTable {
    const root: nat
    var mem: Memory
    ghost var tabs: Tables
    ghost var flat: Flat

    /** The tables in memory are the tree of `flat`, with no empty table and none to spare. */
    ghost predicate Valid() reads this {
      Tree(mem, root, tabs, flat, 0, 0)
    }

    /** Mid-operation: the tables on the way to `w` exist down to level `k`. */
    ghost predicate At(k: int, w: int) reads this {
      Tree(mem, root, tabs, flat, k, w) && 0 <= w < PAGES
    }

    /** Memory charged for tables and mapped pages. */
    ghost function Charge(): int reads this {
      PAGE_SIZE * (|tabs| + |flat|)
    }

    constructor (page: nat)
      ensures Valid() && flat == map[] && root == page
    {
      root := page;
      mem := map[page := seq(ENTRIES, _ => Invalid)];
      tabs := map[ROOT := page];
      flat := map[];
      new;
      forall s ensures s in tabs <==> Needed(flat, s, 0, 0) { }
    }

    /** `get_next_ptp` with `alloc` false */
    method GetNextPtp(cur: nat, level: int, v: int, ghost k: int, ghost w: int) returns (ret: int, next: nat)
      requires At(k, w) && 0 <= level <= 2 && 0 <= v < PAGES
      requires PageTableModel.At(v, level) in tabs && cur == tabs[PageTableModel.At(v, level)]
      ensures ret == (if PageTableModel.At(v, level + 1) in tabs then NORMAL_PTP else -ENOMAPPING)
      ensures ret == NORMAL_PTP ==> next == tabs[PageTableModel.At(v, level + 1)]
    {
      hide Tree, Up;
      Walk(mem, root, tabs, flat, k, w, v, level);
      var entry := mem[cur][Index(v, level)];
      if entry == Invalid {
        return -ENOMAPPING, 0;
      }
      return NORMAL_PTP, entry.next;
    }

    /** `get_next_ptp` with `alloc` true, on the way to the page `v` being mapped */
    method GetOrAddPtp(cur: nat, level: int, v: int) returns (next: nat, rss: int)
      requires At(level, v) && 0 <= level <= 2
      requires PageTableModel.At(v, level) in tabs && cur == tabs[PageTableModel.At(v, level)]
      modifies this
      ensures At(level + 1, v) && flat == old(flat)
      ensures PageTableModel.At(v, level + 1) in tabs && next == tabs[PageTableModel.At(v, level + 1)]
      ensures rss == PAGE_SIZE * (|tabs| - old(|tabs|))
    {
      hide Tree, Up, Storage;
      Walk(mem, root, tabs, flat, level, v, v, level);
      var i := Index(v, level);
      rss := 0;
      if mem[cur][i] == Invalid {
        ghost var bound := FreshPage(mem.Keys);
        assert bound !in mem;
        var page: nat :| page !in mem;
        AddTable(mem, root, tabs, flat, level, v, page);
        mem := mem[page := seq(ENTRIES, _ => Invalid)];
        mem := SetEntry(mem, cur, i, Table(page));
        tabs := tabs[PageTableModel.At(v, level + 1) := page];
        rss := PAGE_SIZE;
      } else {
        KeepTable(mem, root, tabs, flat, level, v);
      }
      Walk(mem, root, tabs, flat, level + 1, v, v, level);
      next := mem[cur][i].next;
    }

    /** `query_in_pgtbl` */
    method Query(va: nat) returns (ret: int, pa: int, attr: Attr)
      requires Valid() && va < PAGES * PAGE_SIZE
      ensures ret == (if va / PAGE_SIZE in flat then 0 else -ENOMAPPING)
      ensures ret == 0 ==>
        pa == flat[va / PAGE_SIZE].pfn * PAGE_SIZE + va % PAGE_SIZE && attr == flat[va / PAGE_SIZE].attr
    {
      hide Tree, Up, Storage, Spots, Needed, Under;
      var v := va / PAGE_SIZE;
      pa, attr := 0, Attr(0, 0, 0, 0, 0, 0, 0, 0);
      RootThere(mem, root, tabs, flat, 0, 0, v);
      if v in flat { AllThere(mem, root, tabs, flat, 0, 0, v); }
      var l1, l2, l3;
      ret, l1 := GetNextPtp(root, 0, v, 0, 0);
      if ret < 0 { return; }
      ret, l2 := GetNextPtp(l1, 1, v, 0, 0);
      if ret < 0 { return; }
      ret, l3 := GetNextPtp(l2, 2, v, 0, 0);
      if ret < 0 { return; }
      Walk(mem, root, tabs, flat, 0, 0, v, 3);
      var entry := mem[l3][Index(v, 3)];
      if entry == Invalid { return -ENOMAPPING, pa, attr; }
      return 0, entry.leaf.pfn * PAGE_SIZE + va % PAGE_SIZE, entry.leaf.attr;
    }

    /** `map_range_in_pgtbl_common` */
    method MapRange(va: nat, pa: nat, len: nat, flags: Prot, kind: Kind) returns (rss: int)
      requires Valid() && va / PAGE_SIZE + PageCount(len) <= PAGES
      modifies this
      ensures Valid()
      ensures flat == Mapped(old(flat), va / PAGE_SIZE, pa / PAGE_SIZE, PageCount(len), PteFlags(flags, kind))
      ensures rss == PAGE_SIZE * (|tabs| - old(|tabs|) + PageCount(len))
    {
      hide Tree, Up, PteFlags, Mapped, Pass, PageCount;
      var v, p, total := va / PAGE_SIZE, pa / PAGE_SIZE, PageCount(len);
      ghost var n := total;
      rss := 0;
      MappedNone(flat, v, p, PteFlags(flags, kind));
      while total > 0
        invariant 0 <= total <= n && v == va / PAGE_SIZE + (n - total) && p == pa / PAGE_SIZE + (n - total)
        invariant Valid()
        invariant flat == Mapped(old(flat), va / PAGE_SIZE, pa / PAGE_SIZE, n - total, PteFlags(flags, kind))
        invariant rss == PAGE_SIZE * (|tabs| - old(|tabs|) + (n - total))
      {
        AnyPage(mem, root, tabs, flat, 0, v);
        RootThere(mem, root, tabs, flat, 0, v, v);
        var l1, d1 := GetOrAddPtp(root, 0, v);
        var l2, d2 := GetOrAddPtp(l1, 1, v);
        var l3, d3 := GetOrAddPtp(l2, 2, v);
        rss := rss + d1 + d2 + d3;
        var done := MapTable(l3, v, p, total, PteFlags(flags, kind));
        MappedOn(old(flat), va / PAGE_SIZE, pa / PAGE_SIZE, n - total, done, PteFlags(flags, kind));
        v, p, total := v + done, p + done, total - done;
        rss := rss + done * PAGE_SIZE;
      }
    }

    /** The loop of `map_range_in_pgtbl_common` over one last-level table. */
    method MapTable(l3: nat, v: int, p: int, total: int, a: Attr) returns (done: int)
      requires At(3, v) && total > 0 && v + total <= PAGES
      requires PageTableModel.At(v, 3) in tabs && l3 == tabs[PageTableModel.At(v, 3)]
      modifies `mem, `flat
      ensures done == Pass(v, total) && Valid() && flat == Mapped(old(flat), v, p, done, a)
    {
      hide Tree, Up, LeafPte, SameBut;
      done := 0;
      while done < total && Index(v, 3) + done < ENTRIES
        invariant 0 <= done <= Pass(v, total) && At(3, v)
        invariant flat == Mapped(old(flat), v, p, done, a)
      {
        SameTable(v, done);
        PutSame(flat, v + done, Leaf(p + done, a));
        WriteLeaf(mem, root, tabs, flat, flat[v + done := Leaf(p + done, a)], v, v + done);
        mem := SetEntry(mem, l3, Index(v, 3) + done, Page(Leaf(p + done, a)));
        flat := flat[v + done := Leaf(p + done, a)];
        done := done + 1;
      }
      MappedPages(old(flat), v, p, done, a);
      Settle(mem, root, tabs, flat, 3, v, v);
    }

    /** `try_release_ptp` for the table of level `d`+1 on the way to `w` */
    method TryRelease(high: nat, low: nat, index: int, ghost d: int, ghost w: int) returns (released: bool, rss: int)
      requires At(d + 1, w) && 0 <= d <= 2 && index == Index(w, d)
      requires PageTableModel.At(w, d) in tabs && high == tabs[PageTableModel.At(w, d)]
      requires PageTableModel.At(w, d + 1) in tabs && low == tabs[PageTableModel.At(w, d + 1)]
      modifies `mem, `tabs
      ensures low in old(mem) && |old(mem)[low]| == ENTRIES
        && (released <==> forall j :: 0 <= j < ENTRIES ==> old(mem)[low][j] == Invalid)
      ensures released ==> At(d, w) && tabs == old(tabs) - {PageTableModel.At(w, d + 1)}
      ensures !released ==> Valid() && tabs == old(tabs) && mem == old(mem)
      ensures rss == PAGE_SIZE * (|tabs| - old(|tabs|))
    {
      hide Tree, Up, Under;
      Walk(mem, root, tabs, flat, d + 1, w, w, d + 1);
      var i := 0;
      while i < ENTRIES
        invariant 0 <= i <= ENTRIES
        invariant forall j :: 0 <= j < i ==> mem[low][j] == Invalid
      {
        if mem[low][i] != Invalid {
          NonEmptySettles(mem, root, tabs, flat, d + 1, w, i);
          return false, 0;
        }
        i := i + 1;
      }
      EmptyUnused(mem, root, tabs, flat, d + 1, w);
      DropTable(mem, root, tabs, flat, d, w);
      mem := SetEntry(mem, high, index, Invalid);
      mem := mem - {low};
      tabs := tabs - {PageTableModel.At(w, d + 1)};
      return true, -PAGE_SIZE;
    }

    /** `recycle_pgtable_entry` */
    method Recycle(l1: nat, l2: nat, l3: nat, w: int) returns (rss: int)
      requires At(3, w)
      requires PageTableModel.At(w, 1) in tabs && l1 == tabs[PageTableModel.At(w, 1)]
      requires PageTableModel.At(w, 2) in tabs && l2 == tabs[PageTableModel.At(w, 2)]
      requires PageTableModel.At(w, 3) in tabs && l3 == tabs[PageTableModel.At(w, 3)]
      modifies `mem, `tabs
      ensures Valid() && rss == PAGE_SIZE * (|tabs| - old(|tabs|))
    {
      hide Tree, Up;
      RootThere(mem, root, tabs, flat, 3, w, w);
      var released, d := TryRelease(l2, l3, Index(w, 2), 2, w);
      rss := d;
      if !released { return; }
      released, d := TryRelease(l1, l2, Index(w, 1), 1, w);
      rss := rss + d;
      if !released { return; }
      released, d := TryRelease(root, l1, Index(w, 0), 0, w);
      rss := rss + d;
      if released { AnyPage(mem, root, tabs, flat, w, 0); }
    }

    /** One round of the loop of `unmap_range_in_pgtbl` over a last-level table. */
    method ClearEntry(l3: nat, v: int, k: int) returns (rss: int)
      requires At(3, v) && 0 <= k && Index(v, 3) + k < ENTRIES && v + k < PAGES
      requires PageTableModel.At(v, 3) in tabs && l3 == tabs[PageTableModel.At(v, 3)]
      modifies `mem, `flat
      ensures At(3, v) && flat == Cut(old(flat), v + k)
      ensures rss == PAGE_SIZE * (|flat| - old(|flat|))
    {
      hide Tree, Up, LeafPte, SameBut, Index, Cut;
      var i := Index(v, 3) + k;
      SameTable(v, k);
      CutSame(flat, v + k);
      Walk(mem, root, tabs, flat, 3, v, v + k, 3);
      WriteLeaf(mem, root, tabs, flat, Cut(flat, v + k), v, v + k);
      rss := if mem[l3][i] != Invalid then -PAGE_SIZE else 0;
      mem := SetEntry(mem, l3, i, Invalid);
      flat := Cut(flat, v + k);
    }

    /** The loop of `unmap_range_in_pgtbl` over one last-level table. */
    method ClearTable(l3: nat, v: int, total: int) returns (done: int, rss: int)
      requires At(3, v) && total > 0 && v + total <= PAGES
      requires PageTableModel.At(v, 3) in tabs && l3 == tabs[PageTableModel.At(v, 3)]
      modifies `mem, `flat
      ensures done == Pass(v, total) && At(3, v) && flat == Clear(old(flat), v, done)
      ensures rss == PAGE_SIZE * (|flat| - old(|flat|))
    {
      hide Tree, Up, Clear, Index, Cut;
      done, rss := 0, 0;
      ClearStep(flat, v, 0);
      while done < total && Index(v, 3) + done < ENTRIES
        invariant 0 <= done <= Pass(v, total) && At(3, v)
        invariant flat == Clear(old(flat), v, done)
        invariant rss == PAGE_SIZE * (|flat| - old(|flat|))
      {
        ClearStep(old(flat), v, done);
        var d := ClearEntry(l3, v, done);
        rss, done := rss + d, done + 1;
      }
    }

    /** `unmap_range_in_pgtbl` */
    method UnmapRange(va: nat, len: nat) returns (rss: int)
      requires Valid() && va / PAGE_SIZE + PageCount(len) <= PAGES
      modifies this
      ensures Valid()
      ensures flat == Unmapped(old(flat), va / PAGE_SIZE, PageCount(len))
      ensures rss == Charge() - old(Charge())
    {
      hide Tree, Up, Under, Gap, Pass, Clear, Present, PageCount;
      var v, total := va / PAGE_SIZE, PageCount(len);
      rss := 0;
      while total > 0
        invariant 0 <= v && Valid() && (total > 0 ==> v + total <= PAGES)
        invariant Unmapped(flat, v, total) == Unmapped(old(flat), va / PAGE_SIZE, PageCount(len))
        invariant rss == Charge() - old(Charge())
        decreases total
      {
        RootThere(mem, root, tabs, flat, 0, 0, v);
        TablePresent(mem, root, tabs, flat, v);
        var ret, l1 := GetNextPtp(root, 0, v, 0, 0);
        if ret == -ENOMAPPING {
          total, v := total - Gap(v, 0), v + Gap(v, 0);
          continue;
        }
        var l2;
        ret, l2 := GetNextPtp(l1, 1, v, 0, 0);
        if ret == -ENOMAPPING {
          total, v := total - Gap(v, 1), v + Gap(v, 1);
          continue;
        }
        var l3;
        ret, l3 := GetNextPtp(l2, 2, v, 0, 0);
        if ret == -ENOMAPPING {
          total, v := total - Gap(v, 2), v + Gap(v, 2);
          continue;
        }
        AnyPage(mem, root, tabs, flat, 0, v);
        KeepTable(mem, root, tabs, flat, 0, v);
        KeepTable(mem, root, tabs, flat, 1, v);
        KeepTable(mem, root, tabs, flat, 2, v);
        var done, d := ClearTable(l3, v, total);
        rss := rss + d;
        d := Recycle(l1, l2, l3, v);
        rss := rss + d;
        v, total := v + done, total - done;
      }
    }

    /** Mapping a fresh range and unmapping it again restores the table and is charged nothing. */
    method MapThenUnmapRange(va: nat, pa: nat, len: nat, flags: Prot, kind: Kind) returns (rss: int)
      requires Valid() && va / PAGE_SIZE + PageCount(len) <= PAGES
      requires Clearable(va / PAGE_SIZE, PageCount(len)) && Gone(flat, va / PAGE_SIZE, va / PAGE_SIZE + PageCount(len))
      modifies this
      ensures Valid() && flat == old(flat) && tabs.Keys == old(tabs.Keys) && rss == 0
    {
      hide Clearable, Gone, PageCount, PteFlags, Unmapped, Mapped, Storage, Links, Leaves, Spots;
      var up := MapRange(va, pa, len, flags, kind);
      ghost var t := tabs;
      var down := UnmapRange(va, len);
      rss := up + down;
      FreshRangeChargesNothing(old(tabs), t, tabs, old(flat), va / PAGE_SIZE, pa / PAGE_SIZE, PageCount(len),
        PteFlags(flags, kind));
    }

    /** A mapping as the hardware then sees it: every address of the range leads to its place in the frames,
    with exactly the requested rights and kind of memory. */
    method MapThenQuery(va: nat, pa: nat, len: nat, flags: Prot, kind: Kind, at: nat) returns (to: int, attr: Attr)
      requires Valid() && va / PAGE_SIZE + PageCount(len) <= PAGES
      requires va / PAGE_SIZE <= at / PAGE_SIZE < va / PAGE_SIZE + PageCount(len)
      modifies this
      ensures Valid() && to == (pa / PAGE_SIZE + at / PAGE_SIZE - va / PAGE_SIZE) * PAGE_SIZE + at % PAGE_SIZE
      ensures va % PAGE_SIZE == pa % PAGE_SIZE == 0 ==> to == pa + (at - va)
      ensures Grants(Decode(attr), flags, kind)
    {
      hide Tree, PteFlags, PageCount, Mapped, Grants, Decode;
      var rss := MapRange(va, pa, len, flags, kind);
      MappedPages(old(flat), va / PAGE_SIZE, pa / PAGE_SIZE, PageCount(len), PteFlags(flags, kind));
      FlagsGrant(flags, kind);
      var ret;
      ret, to, attr := Query(at);
    }
  }

  lemma RootThere(m: Memory, root: nat, tabs: Tables, flat: Flat, k: int, w: int, v: int)
    requires Tree(m, root, tabs, flat, k, w)
    ensures PageTableModel.At(v, 0) == ROOT && ROOT in tabs && tabs[ROOT] == root
  {
  }

  lemma AllThere(m: Memory, root: nat, tabs: Tables, flat: Flat, k: int, w: int, v: int)
    requires Tree(m, root, tabs, flat, k, w) && v in flat
    ensures forall d :: 0 <= d <= 3 ==> PageTableModel.At(v, d) in tabs
  {
    forall d | 0 <= d <= 3 ensures PageTableModel.At(v, d) in tabs { MappedHasTables(tabs, flat, k, w, v, d); }
  }

  /** Between operations a table exists exactly when the flat map needs it. */
  lemma TablePresent(m: Memory, root: nat, tabs: Tables, flat: Flat, v: int)
    requires Tree(m, root, tabs, flat, 0, 0)
    ensures forall d :: 1 <= d <= 3 ==> (PageTableModel.At(v, d) in tabs <==> Present(flat, v, d))
  {
    hide Up, Under;
    forall d | 1 <= d <= 3 ensures PageTableModel.At(v, d) in tabs <==> Present(flat, v, d) {
      assert PageTableModel.At(v, d) in tabs <==> Needed(flat, PageTableModel.At(v, d), 0, 0);
    }
  }

  lemma PutSame(flat: Flat, v: int, l: Leaf)
    ensures SameBut(flat, flat[v := l], v) && LeafPte(flat[v := l], v) == Page(l)
  {
  }

  lemma CutSame(flat: Flat, v: int)
    ensures SameBut(flat, Cut(flat, v), v) && LeafPte(Cut(flat, v), v) == Invalid
    ensures |Cut(flat, v)| == |flat| - (if LeafPte(flat, v) == Invalid then 0 else 1)
  {
    if v !in flat { assert flat - {v} == flat; }
  }

  lemma SameTable(v: int, k: int)
    requires 0 <= v && 0 <= k && Index(v, 3) + k < ENTRIES
    ensures Up(v + k, 3) == Up(v, 3) && Index(v + k, 3) == Index(v, 3) + k
  {
  }

  lemma ClearStep(flat: Flat, v: int, n: nat)
    ensures Clear(flat, v, 0) == flat && Clear(flat, v, n + 1) == Cut(Clear(flat, v, n), v + n)
  {
  }

  lemma MappedNone(flat: Flat, v: int, p: int, a: Attr)
    ensures Mapped(flat, v, p, 0, a) == flat
  {
  }

  lemma {:induction false} MappedOn(flat: Flat, v: int, p: int, n: nat, k: nat, a: Attr)
    ensures Mapped(Mapped(flat, v, p, n, a), v + n, p + n, k, a) == Mapped(flat, v, p, n + k, a)
  {
    if k > 0 { MappedOn(flat, v, p, n, k - 1, a); }
  }

  /** A permission survives the descriptor, write implying read. */
  lemma ApRoundTrip(p: Prot, kind: Kind)
    ensures ApToProt(PteFlags(p, kind).ap) == (p.read || p.write, p.write)
    ensures PteFlags(p, kind).pxn == 1 || PteFlags(p, kind).uxn == 1
  {
  }

  /** Mapping a fresh range and unmapping it again is charged nothing, and leaves every table as
  it was: `s`, `t` and `u` are the table sets before, between and after. */
  lemma FreshRangeChargesNothing(s: Tables, t: Tables, u: Tables, flat: Flat, v: int, p: int, n: nat, a: Attr)
    requires Spots(s, flat, 0, 0) && 0 <= v && Clearable(v, n) && Gone(flat, v, v + n)
    requires Spots(u, Unmapped(Mapped(flat, v, p, n, a), v, n), 0, 0)
    ensures u.Keys == s.Keys && Unmapped(Mapped(flat, v, p, n, a), v, n) == flat
    ensures PAGE_SIZE * (|t| - |s| + n)
      + PAGE_SIZE * ((|u| + |Unmapped(Mapped(flat, v, p, n, a), v, n)|) - (|t| + |Mapped(flat, v, p, n, a)|)) == 0
  {
    hide Spots, Unmapped, Clearable;
    MapThenUnmap(flat, v, p, n, a);
    MappedSize(flat, v, p, n, a);
    TablesDetermined(s, flat, u, Unmapped(Mapped(flat, v, p, n, a), v, n));
    assert |u.Keys| == |u| && |s.Keys| == |s|;
  }
}
