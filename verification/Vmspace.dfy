/** The regions of an address space (`vmspace.c`): a list and a red-black tree of the same disjoint
regions. Addresses do not wrap. */
module Vmspace {
  import opened RbShape
  import opened RbOrder
  import opened RbTree
  import Lists

  const PAGE_SIZE := 4096
  const EINVAL := 22

  datatype Region = Region(start: int, size: int, perm: int)

  /** The last address of a region. */
  function End(r: Region): int { r.start + r.size - 1 }

  type Regions = map<RbNode, Region>

  ghost predicate Overlaps(r: Region, start: int, size: int) {
    r.start < start + size && start < r.start + r.size
  }

  ghost predicate Contains(r: Region, va: int) { r.start <= va < r.start + r.size }

  /** `cmp_two_vmrs` */
  function Before2(regions: Regions): (RbNode, RbNode) -> bool {
    (a: RbNode, b: RbNode) => a in regions && b in regions && End(regions[a]) < regions[b].start
  }

  /** `cmp_vmr_and_range` */
  function CmpRange(regions: Regions, start: int, end: int): RbNode -> int {
    (n: RbNode) =>
      if n !in regions then 0 else if end < regions[n].start then -1 else if start > End(regions[n]) then 1 else 0
  }

  /** `cmp_vmr_and_va` */
  function CmpVa(regions: Regions, va: int): RbNode -> int {
    (n: RbNode) =>
      if n !in regions then 0 else if va < regions[n].start then -1 else if va > End(regions[n]) then 1 else 0
  }

  /** Non-empty regions, one after the other. */
  ghost predicate Ascending(order: seq<RbNode>, regions: Regions) {
    && (forall i :: 0 <= i < |order| ==> order[i] in regions && regions[order[i]].size > 0)
    && (forall i, j :: 0 <= i < j < |order| ==> End(regions[order[i]]) < regions[order[j]].start)
  }

  /** The space between two orders of the same regions: they do not overlap. */
  lemma OneAfterOther(order: seq<RbNode>, regions: Regions, i: int, j: int)
    requires Ascending(order, regions) && 0 <= i < |order| && 0 <= j < |order| && i != j
    ensures !Overlaps(regions[order[i]], regions[order[j]].start, regions[order[j]].size)
  {
  }

  /** The comparison used for insertion is a strict order on disjoint regions. */
  lemma BeforeIsStrict(regions: Regions, S: set<RbNode>)
    requires S <= regions.Keys
    requires forall a <- S :: regions[a].size > 0
    requires forall a <- S, b <- S :: a != b ==> !Overlaps(regions[a], regions[b].start, regions[b].size)
    ensures StrictWeak(Before2(regions), S)
  {
  }

  lemma RangeFalls(order: seq<RbNode>, regions: Regions, start: int, end: int)
    requires Ascending(order, regions) && start <= end
    ensures Falling(order, CmpRange(regions, start, end))
  {
  }

  lemma VaFalls(order: seq<RbNode>, regions: Regions, va: int)
    requires Ascending(order, regions)
    ensures Falling(order, CmpVa(regions, va))
  {
  }

  lemma AscendingSorted(order: seq<RbNode>, regions: Regions)
    requires Ascending(order, regions)
    ensures Sorted(order, Before2(regions))
  {
  }

  /** A new region goes between those that end before it and those that start after it. */
  lemma InsertAscends(order: seq<RbNode>, regions: Regions, n: RbNode, r: Region, k: nat)
    requires Ascending(order, regions) && n !in regions && r.size > 0 && k <= |order|
    requires forall x <- order :: x in regions && !Overlaps(regions[x], r.start, r.size)
    requires AllBelow(order[..k], n, Before2(regions[n := r])) && AllAbove(order[k..], n, Before2(regions[n := r]))
    ensures Ascending(order[..k] + [n] + order[k..], regions[n := r])
  {
    var w := order[..k] + [n] + order[k..];
    var t := regions[n := r];
    forall i | 0 <= i < k ensures End(t[order[i]]) < r.start {
      assert order[i] == order[..k][i] && order[i] in order;
    }
    forall i | k <= i < |order| ensures End(r) < t[order[i]].start {
      assert order[i] == order[k..][i - k];
    }
    assert forall i :: 0 <= i < |w| ==> w[i] == if i < k then order[i] else if i == k then n else order[i - 1];
  }

  lemma EraseAscends(order: seq<RbNode>, regions: Regions, i: nat)
    requires Ascending(order, regions) && i < |order|
    ensures Ascending(order[..i] + order[i + 1..], regions - {order[i]})
  {
    var w := order[..i] + order[i + 1..];
    assert forall j :: 0 <= j < |w| ==> w[j] == if j < i then order[j] else order[j + 1];
  }

  lemma UnlistOnce(l: seq<RbNode>, n: RbNode)
    requires Lists.NoDup(l) && n in l
    ensures Lists.NoDup(Lists.Without(l, n)) && Elems(Lists.Without(l, n)) == Elems(l) - {n}
  {
    Lists.WithoutIs(l, n);
    var r := Lists.Without(l, n);
    forall x | x in Elems(r) ensures x in Elems(l) - {n} { assert x in r; }
    forall x | x in Elems(l) - {n} ensures x in Elems(r) { assert x in l; }
  }

  lemma ListAddOnce(l: seq<RbNode>, n: RbNode)
    requires Lists.NoDup(l) && n !in Elems(l)
    ensures Lists.NoDup([n] + l) && Elems([n] + l) == Elems(l) + {n}
  {
    hide Lists.NoDup;
    Lists.NoDupCons(n, l);
  }

  /** The start of the page of `va` */
  function RoundDown(va: int): (r: int)
    ensures r % PAGE_SIZE == 0 && r <= va < r + PAGE_SIZE
  {
    va / PAGE_SIZE * PAGE_SIZE
  }

  /** The least number of whole pages, in bytes, that holds `len` bytes */
  function RoundUp(len: int): (r: int)
    ensures r % PAGE_SIZE == 0 && len <= r < len + PAGE_SIZE
  {
    (len + PAGE_SIZE - 1) / PAGE_SIZE * PAGE_SIZE
  }

  class VmSpace {
    const tree: RbRoot
    /** `vmr_list`, first element first */
    var list: seq<RbNode>
    /** the region that each node belongs to */
    var regions: Regions

    /** List and tree hold the same regions, which are disjoint and ordered in the tree. */
    ghost predicate Valid()
      reads this, tree, Nodes(tree.tree)
    {
      && tree.Valid() && Lists.NoDup(list) && Elems(list) == Nodes(tree.tree) && regions.Keys == Nodes(tree.tree)
      && Ascending(InOrder(tree.tree), regions)
    }

    constructor ()
      ensures Valid() && list == [] && fresh(tree)
    {
      tree := new RbRoot();
      list := [];
      regions := map[];
    }

    /** `check_vmr_intersect`: true exactly when a scan of the list finds an overlap. */
    method CheckIntersect(start: int, size: int) returns (r: bool)
      requires Valid() && size > 0
      ensures r <==> exists n <- list :: n in regions && Overlaps(regions[n], start, size)
    {
      hide InOrder, Nodes, Elems, Linked, RedBlack, Distinct, Falling, NoMatch;
      RangeFalls(InOrder(tree.tree), regions, start, start + size - 1);
      InOrderNodes(tree.tree);
      var n := tree.Search(CmpRange(regions, start, start + size - 1));
      ListIsOrder(list, InOrder(tree.tree));
      r := n != null;
      if r {
        assert n in list && Overlaps(regions[n], start, size);
      } else {
        NoneOverlaps(InOrder(tree.tree), regions, start, size);
      }
    }

    /** `find_vmr_for_va`: the one region that contains the address, if any. */
    method FindVmr(va: int) returns (r: RbNode?)
      requires Valid()
      ensures r != null ==> r in list && r in regions && Contains(regions[r], va)
      ensures r != null ==> forall n <- list :: n in regions && (Contains(regions[n], va) ==> n == r)
      ensures r == null ==> forall n <- list :: n in regions && !Contains(regions[n], va)
    {
      hide InOrder, Nodes, Elems, Linked, RedBlack, Distinct, Falling, NoMatch;
      VaFalls(InOrder(tree.tree), regions, va);
      InOrderNodes(tree.tree);
      r := tree.Search(CmpVa(regions, va));
      ListIsOrder(list, InOrder(tree.tree));
      if r != null {
        OnlyOne(InOrder(tree.tree), regions, va, r);
      } else {
        NoneContains(InOrder(tree.tree), regions, va);
      }
    }

    /** `add_vmr_to_vmspace` */
    method Add(n: RbNode, r: Region) returns (ret: int)
      requires Valid() && n !in Nodes(tree.tree) && r.size > 0
      modifies this, tree, Nodes(tree.tree), n
      ensures Valid()
      ensures ret == if exists x <- old(list) :: x in old(regions) && Overlaps(old(regions)[x], r.start, r.size)
        then -EINVAL else 0
      ensures ret == 0 ==>
        list == [n] + old(list) && regions == old(regions)[n := r] && Nodes(tree.tree) == old(Nodes(tree.tree)) + {n}
      ensures ret != 0 ==> list == old(list) && regions == old(regions) && tree.tree == old(tree.tree)
    {
      hide InOrder, Nodes, Linked, RedBlack, Distinct, AllBelow, AllAbove, StrictWeak, Sorted, Ascending, Overlaps,
        Lists.NoDup, Elems, Before2;
      var hit := CheckIntersect(r.start, r.size);
      if hit { return -EINVAL; }
      ghost var order, S := InOrder(tree.tree), Nodes(tree.tree);
      InOrderNodes(tree.tree);
      ListIsOrder(list, order);
      AllKnown(order, regions);
      AddReady(order, regions, S, n, r);
      ListAddOnce(list, n);
      list := [n] + list;
      ghost var was := regions;
      regions := regions[n := r];
      ghost var k := tree.Insert(n, Before2(regions));
      InsertAscends(order, was, n, r, k);
      return 0;
    }

    /** `remove_vmr_from_vmspace` */
    method Remove(n: RbNode)
      requires Valid() && n in list
      modifies this, tree, Nodes(tree.tree)
      ensures Valid() && list == Lists.Without<RbNode>(old(list), n) && regions == old(regions) - {n}
      ensures Nodes(tree.tree) == old(Nodes(tree.tree)) - {n}
    {
      hide InOrder, Nodes, Linked, RedBlack, Distinct, Lists.NoDup, Lists.Without, Ascending, Overlaps;
      ghost var order := InOrder(tree.tree);
      InOrderNodes(tree.tree);
      ListIsOrder(list, order);
      OwnOverlap(order, regions, n);
      var hit := CheckIntersect(regions[n].start, regions[n].size);
      if hit {
        UnlistOnce(list, n);
        ghost var i := tree.Erase(n);
        EraseAscends(order, regions, i);
        list := Lists.Without(list, n);
        regions := regions - {n};
      }
    }

    /** `vmspace_map_range`: a page-aligned region is added unless it overlaps one. */
    method MapRange(va: nat, len: nat, perm: int) returns (ret: int, ghost n: RbNode?)
      requires Valid()
      modifies this, tree, Nodes(tree.tree)
      ensures Valid() && fresh(Nodes(tree.tree) - old(Nodes(tree.tree)))
      ensures len == 0 ==> ret == 0 && list == old(list) && regions == old(regions)
      ensures len > 0 ==> RoundUp(len) > 0 && (ret == 0 || ret == -EINVAL)
      ensures len > 0 ==> (ret == -EINVAL <==>
        exists x <- old(list) :: x in old(regions) && Overlaps(old(regions)[x], RoundDown(va), RoundUp(len)))
      ensures ret != 0 ==> list == old(list) && regions == old(regions)
      ensures len > 0 && ret == 0 ==>
        && n != null && list == [n] + old(list)
        && regions == old(regions)[n := Region(RoundDown(va), RoundUp(len), perm)]
    {
      hide InOrder, Nodes, Linked, RedBlack, Distinct, Elems, Lists.NoDup, Ascending, Overlaps;
      n := null;
      if len == 0 { return 0, null; }
      var node := new RbNode();
      ret := Add(node, Region(RoundDown(va), RoundUp(len), perm));
      n := node;
    }

    /** `vmspace_unmap_range`: a whole region goes, nothing else; an address outside every region is
    ignored. */
    method UnmapRange(va: int, len: int) returns (ret: int, ghost n: RbNode?)
      requires Valid()
      modifies this, tree, Nodes(tree.tree)
      ensures Valid() && Nodes(tree.tree) <= old(Nodes(tree.tree))
      ensures n == null ==>
        && ret == 0 && list == old(list) && regions == old(regions)
        && forall x <- old(list) :: x in old(regions) && !Contains(old(regions)[x], va)
      ensures n != null ==>
        && n in old(list) && n in old(regions) && Contains(old(regions)[n], va)
        && (ret == 0 <==> old(regions)[n].start == va && old(regions)[n].size == len) && (ret == 0 || ret == -EINVAL)
      ensures n != null && ret == 0 ==> list == Lists.Without<RbNode>(old(list), n) && regions == old(regions) - {n}
      ensures ret != 0 ==> list == old(list) && regions == old(regions)
    {
      hide InOrder, Nodes, Linked, RedBlack, Distinct, Elems, Lists.NoDup, Ascending, Lists.Without;
      var vmr := FindVmr(va);
      n := vmr;
      if vmr == null { return 0, n; }
      if va != regions[vmr].start || len != regions[vmr].size { return -EINVAL, n; }
      Remove(vmr);
      return 0, n;
    }
  }

  lemma OnlyOne(order: seq<RbNode>, regions: Regions, va: int, r: RbNode)
    requires Ascending(order, regions) && r in order && CmpVa(regions, va)(r) == 0
    ensures r in regions && Contains(regions[r], va)
    ensures forall n <- order :: n in regions && (Contains(regions[n], va) ==> n == r)
  {
    var j :| 0 <= j < |order| && order[j] == r;
    forall n <- order ensures n in regions && (Contains(regions[n], va) ==> n == r) {
      var i :| 0 <= i < |order| && order[i] == n;
    }
  }

  lemma NoneContains(order: seq<RbNode>, regions: Regions, va: int)
    requires Ascending(order, regions) && NoMatch(order, CmpVa(regions, va))
    ensures forall n <- order :: n in regions && !Contains(regions[n], va)
  {
    forall n <- order ensures n in regions && !Contains(regions[n], va) {
      var i :| 0 <= i < |order| && order[i] == n;
      assert CmpVa(regions, va)(order[i]) != 0;
    }
  }

  lemma AllKnown(order: seq<RbNode>, regions: Regions)
    requires Ascending(order, regions)
    ensures forall x <- order :: x in regions
  {
    forall x <- order ensures x in regions { var i :| 0 <= i < |order| && order[i] == x; }
  }

  lemma OwnOverlap(order: seq<RbNode>, regions: Regions, n: RbNode)
    requires Ascending(order, regions) && n in order
    ensures n in regions && regions[n].size > 0 && Overlaps(regions[n], regions[n].start, regions[n].size)
  {
    var i :| 0 <= i < |order| && order[i] == n;
  }

  /** With a region that overlaps none, the insertion order is strict and the tree is sorted by it. */
  lemma AddReady(order: seq<RbNode>, regions: Regions, S: set<RbNode>, n: RbNode, r: Region)
    requires Ascending(order, regions) && Elems(order) == S == regions.Keys && n !in S && r.size > 0
    requires forall x <- order :: x in regions && !Overlaps(regions[x], r.start, r.size)
    ensures StrictWeak(Before2(regions[n := r]), S + {n}) && Sorted(order, Before2(regions[n := r]))
  {
    hide StrictWeak, Sorted;
    var t := regions[n := r];
    forall a <- S
      ensures a in order && t[a].size > 0 && !Overlaps(t[a], r.start, r.size)
        && !Overlaps(r, t[a].start, t[a].size)
    {
      assert a in Elems(order);
      var i :| 0 <= i < |order| && order[i] == a;
    }
    forall a <- S, b <- S | a != b ensures !Overlaps(t[a], t[b].start, t[b].size) {
      assert a in Elems(order) && b in Elems(order);
      var i :| 0 <= i < |order| && order[i] == a;
      var j :| 0 <= j < |order| && order[j] == b;
      OneAfterOther(order, regions, i, j);
    }
    BeforeIsStrict(t, S + {n});
    assert Ascending(order, t) by { assert forall i :: 0 <= i < |order| ==> order[i] in Elems(order); }
    AscendingSorted(order, t);
  }

  lemma ListIsOrder(l: seq<RbNode>, order: seq<RbNode>)
    requires Elems(l) == Elems(order)
    ensures (forall n <- l :: n in order) && forall n <- order :: n in l
  {
    forall n <- l ensures n in order { assert n in Elems(l); }
    forall n <- order ensures n in l { assert n in Elems(order); }
  }

  /** The regions of the list are pairwise disjoint. */
  lemma ListDisjoint(l: seq<RbNode>, order: seq<RbNode>, regions: Regions, a: RbNode, b: RbNode)
    requires Elems(l) == Elems(order) && Ascending(order, regions) && a in l && b in l && a != b
    ensures a in regions && b in regions && !Overlaps(regions[a], regions[b].start, regions[b].size)
  {
    ListIsOrder(l, order);
    var i :| 0 <= i < |order| && order[i] == a;
    var j :| 0 <= j < |order| && order[j] == b;
    OneAfterOther(order, regions, i, j);
  }

  lemma NoneOverlaps(order: seq<RbNode>, regions: Regions, start: int, size: int)
    requires Ascending(order, regions) && NoMatch(order, CmpRange(regions, start, start + size - 1))
    ensures forall n <- order :: n in regions && !Overlaps(regions[n], start, size)
  {
    forall n <- order ensures n in regions && !Overlaps(regions[n], start, size) {
      var i :| 0 <= i < |order| && order[i] == n;
      assert CmpRange(regions, start, start + size - 1)(order[i]) != 0;
    }
  }
}
