/**
The four-level translation table of `page_table.c`, on page numbers.

A table page is a sequence of 512 descriptors, held in a map from page number to content. The
tables in use are named by where they stand in the tree (`Spot`: level and index prefix), and
the tree as a whole stands for a flat map from virtual page to frame and attributes.
*/
module PageTableModel {

  const ENTRIES := 512
  const L3_SPAN := 512             // pages under one level-2 descriptor
  const L2_SPAN := 262144          // pages under one level-1 descriptor
  const L1_SPAN := 134217728       // pages under one level-0 descriptor
  const PAGES := 68719476736       // pages in the 48-bit address space

  /** Attribute fields of a page descriptor. */
  datatype Attr = Attr(ap: nat, pxn: nat, uxn: nat, af: nat, ng: nat, sh: nat, index: nat, ns: nat)

  datatype Leaf = Leaf(pfn: int, attr: Attr)

  datatype Pte = Invalid | Table(next: nat) | Page(leaf: Leaf)

  type Memory = map<nat, seq<Pte>>

  /** A place in the tree: the table at `level` reached by the index prefix `q`. */
  datatype Spot = Spot(level: int, q: int)

  const ROOT := Spot(0, 0)

  type Tables = map<Spot, nat>

  type Flat = map<int, Leaf>

  /** The index prefix of page `v` down to level `d`. */
  function Up(v: int, d: int): int {
    if d == 4 then v
    else if d == 3 then v / 512
    else if d == 2 then v / 512 / 512
    else if d == 1 then v / 512 / 512 / 512
    else 0
  }

  /** `GET_Lx_INDEX` */
  function Index(v: int, d: int): (i: int)
    ensures 0 <= i < ENTRIES
  {
    Up(v, d + 1) % 512
  }

  /** The indexes of the four levels spell the page number, the root's first, as the hardware reads them. */
  lemma IndexesSpell(v: int)
    requires 0 <= v < PAGES
    ensures v == ((Index(v, 0) * 512 + Index(v, 1)) * 512 + Index(v, 2)) * 512 + Index(v, 3)
  {
  }

  function At(v: int, d: int): Spot {
    Spot(d, Up(v, d))
  }

  function Child(s: Spot, i: int): Spot {
    Spot(s.level + 1, s.q * 512 + i)
  }

  lemma ChildOfAt(v: int, d: int)
    requires 0 <= v < PAGES && 0 <= d <= 3
    ensures Child(At(v, d), Index(v, d)) == At(v, d + 1)
  {
  }

  lemma ChildInjective(s: Spot, i: int, t: Spot, j: int)
    requires 0 <= i < ENTRIES && 0 <= j < ENTRIES && Child(s, i) == Child(t, j)
    ensures s == t && i == j
  {
  }

  ghost predicate Under(flat: Flat, s: Spot) {
    exists v <- flat :: Up(v, s.level) == s.q
  }

  /** A table exists where some mapped page needs it; while an operation works at page `w`, also
  on the way to `w` down to level `k`. */
  ghost predicate Needed(flat: Flat, s: Spot, k: int, w: int) {
    || s == ROOT
    || (1 <= s.level <= 3 && (Under(flat, s) || (s.level <= k && s.q == Up(w, s.level))))
  }

  ghost predicate Spots(tabs: Tables, flat: Flat, k: int, w: int) {
    forall s :: s in tabs <==> Needed(flat, s, k, w)
  }

  /** Each table has a page of its own, and there are no other table pages. */
  ghost predicate Storage(m: Memory, root: nat, tabs: Tables) {
    && ROOT in tabs && tabs[ROOT] == root
    && (forall s <- tabs :: tabs[s] in m && |m[tabs[s]]| == ENTRIES)
    && (forall s <- tabs, t <- tabs :: tabs[s] == tabs[t] ==> s == t)
    && (forall p <- m :: exists s <- tabs :: tabs[s] == p)
  }

  ghost function Link(tabs: Tables, s: Spot): Pte {
    if s in tabs then Table(tabs[s]) else Invalid
  }

  ghost function LeafPte(flat: Flat, v: int): Pte {
    if v in flat then Page(flat[v]) else Invalid
  }

  ghost predicate Links(m: Memory, root: nat, tabs: Tables)
    requires Storage(m, root, tabs)
  {
    forall s <- tabs, i :: s.level < 3 && 0 <= i < ENTRIES ==> m[tabs[s]][i] == Link(tabs, Child(s, i))
  }

  ghost predicate Leaves(m: Memory, root: nat, tabs: Tables, flat: Flat)
    requires Storage(m, root, tabs)
  {
    forall s <- tabs, i :: s.level == 3 && 0 <= i < ENTRIES ==> m[tabs[s]][i] == LeafPte(flat, s.q * 512 + i)
  }

  ghost predicate InSpace(flat: Flat) {
    forall v <- flat :: 0 <= v < PAGES
  }

  /** The tables in memory are exactly the tree of `flat`, plus the tables on the way to `w` down
  to level `k`. */
  ghost predicate Tree(m: Memory, root: nat, tabs: Tables, flat: Flat, k: int, w: int) {
    && Storage(m, root, tabs)
    && Spots(tabs, flat, k, w)
    && Links(m, root, tabs)
    && Leaves(m, root, tabs, flat)
    && InSpace(flat)
  }

  /** What a walk meets at level `d` on the way to `v`. */
  lemma Walk(m: Memory, root: nat, tabs: Tables, flat: Flat, k: int, w: int, v: int, d: int)
    requires Tree(m, root, tabs, flat, k, w) && 0 <= v < PAGES && 0 <= d <= 3 && At(v, d) in tabs
    ensures tabs[At(v, d)] in m && |m[tabs[At(v, d)]]| == ENTRIES
    ensures m[tabs[At(v, d)]][Index(v, d)] == if d < 3 then Link(tabs, At(v, d + 1)) else LeafPte(flat, v)
  {
    hide Spots, InSpace, Up, Link, LeafPte;
    ChildOfAt(v, d);
    assert Up(v, 4) == v by { UpLast(v); }
  }

  lemma UpLast(v: int)
    ensures Up(v, 4) == v && Up(v, 0) == 0
  {
  }

  /** A mapped page has all the tables on its way. */
  lemma MappedHasTables(tabs: Tables, flat: Flat, k: int, w: int, v: int, d: int)
    requires Spots(tabs, flat, k, w) && v in flat && 0 <= d <= 3
    ensures At(v, d) in tabs
  {
    assert Under(flat, At(v, d));
    assert Needed(flat, At(v, d), k, w);
  }

  /** The tables on the way to `w` are there down to level `k`. */
  lemma WayHasTables(tabs: Tables, flat: Flat, k: int, w: int, d: int)
    requires Spots(tabs, flat, k, w) && 0 <= d <= k <= 3
    ensures At(w, d) in tabs
  {
    assert Needed(flat, At(w, d), k, w);
  }

  /** No empty table is left: every table but the root has a valid descriptor. */
  lemma NoEmptyTable(m: Memory, root: nat, tabs: Tables, flat: Flat, s: Spot)
    requires Tree(m, root, tabs, flat, 0, 0) && s in tabs && s != ROOT
    ensures exists i :: 0 <= i < ENTRIES && m[tabs[s]][i] != Invalid
  {
    assert Needed(flat, s, 0, 0);
    var v :| v in flat && Up(v, s.level) == s.q;
    assert s == At(v, s.level);
    Walk(m, root, tabs, flat, 0, 0, v, s.level);
    if s.level < 3 {
      MappedHasTables(tabs, flat, 0, 0, v, s.level + 1);
    }
  }

  /** The tables in use are determined by the mapped pages alone. */
  lemma TablesDetermined(tabs: Tables, flat: Flat, tabs': Tables, flat': Flat)
    requires Spots(tabs, flat, 0, 0) && Spots(tabs', flat', 0, 0) && flat.Keys == flat'.Keys
    ensures tabs.Keys == tabs'.Keys
  {
    forall s ensures s in tabs <==> s in tabs' {
      assert Needed(flat, s, 0, 0) <==> Needed(flat', s, 0, 0) by {
        assert Under(flat, s) <==> Under(flat', s);
      }
    }
  }

  // ---- a table is added on the way to w ----

  ghost function Blank(): seq<Pte> { seq(ENTRIES, _ => Invalid) }

  function SetEntry(m: Memory, t: nat, i: int, e: Pte): Memory
    requires t in m && 0 <= i < |m[t]|
  {
    m[t := m[t][i := e]]
  }

  lemma AddSpots(tabs: Tables, flat: Flat, d: int, w: int, page: nat)
    requires Spots(tabs, flat, d, w) && 0 <= d < 3
    ensures Spots(tabs[At(w, d + 1) := page], flat, d + 1, w)
  {
    hide Up, Under;
    var tabs' := tabs[At(w, d + 1) := page];
    forall s ensures s in tabs' <==> Needed(flat, s, d + 1, w) {
      assert s in tabs <==> Needed(flat, s, d, w);
    }
  }

  lemma AddStorage(m: Memory, root: nat, tabs: Tables, s: Spot, page: nat, blank: seq<Pte>)
    requires Storage(m, root, tabs) && s !in tabs && page !in m && |blank| == ENTRIES
    ensures Storage(m[page := blank], root, tabs[s := page])
  {
    var m', tabs' := m[page := blank], tabs[s := page];
    forall p <- m' ensures exists x <- tabs' :: tabs'[x] == p {
      if p == page {
        assert tabs'[s] == p;
      } else {
        var x :| x in tabs && tabs[x] == p;
        assert tabs'[x] == p;
      }
    }
  }

  lemma SetStorage(m: Memory, root: nat, tabs: Tables, t: nat, i: int, e: Pte)
    requires Storage(m, root, tabs) && t in m && 0 <= i < |m[t]|
    ensures Storage(SetEntry(m, t, i, e), root, tabs)
  {
  }

  /** What needs a table needs its parent. */
  lemma ParentNeeded(flat: Flat, d: int, w: int, s: Spot, i: int)
    requires InSpace(flat) && 0 <= w < PAGES && 0 <= s.level && 0 <= i < ENTRIES
    requires Needed(flat, Child(s, i), d, w)
    ensures Needed(flat, s, d, w)
  {
    var c := Child(s, i);
    if Under(flat, c) {
      var v :| v in flat && Up(v, c.level) == c.q;
      assert Up(v, s.level) == s.q;
    } else {
      assert Up(w, s.level) == s.q;
    }
  }

  lemma LeafNeeds(flat: Flat, d: int, w: int, s: Spot, i: int)
    requires 0 <= i < ENTRIES && s.level == 3 && s.q * 512 + i in flat
    ensures Needed(flat, s, d, w)
  {
    assert Up(s.q * 512 + i, 3) == s.q;
  }

  /** Nothing stands below a place that has no table. */
  lemma NothingBelow(tabs: Tables, flat: Flat, d: int, w: int, s: Spot, i: int)
    requires Spots(tabs, flat, d, w) && InSpace(flat) && 0 <= w < PAGES
    requires s !in tabs && 0 <= s.level && 0 <= i < ENTRIES
    ensures Child(s, i) !in tabs
    ensures s.level == 3 ==> s.q * 512 + i !in flat
  {
    hide Needed;
    if Needed(flat, Child(s, i), d, w) { ParentNeeded(flat, d, w, s, i); }
    if s.level == 3 && s.q * 512 + i in flat { LeafNeeds(flat, d, w, s, i); }
  }

  /** The new table has blank entries and its parent points to it. */
  lemma AddLinks(m: Memory, root: nat, tabs: Tables, flat: Flat, d: int, w: int, page: nat)
    requires Tree(m, root, tabs, flat, d, w) && 0 <= d < 3 && 0 <= w < PAGES
    requires At(w, d) in tabs && At(w, d + 1) !in tabs && page !in m
    requires tabs[At(w, d)] in m && |m[tabs[At(w, d)]]| == ENTRIES
    requires Storage(SetEntry(m[page := Blank()], tabs[At(w, d)], Index(w, d), Table(page)), root,
      tabs[At(w, d + 1) := page])
    ensures Links(SetEntry(m[page := Blank()], tabs[At(w, d)], Index(w, d), Table(page)), root,
      tabs[At(w, d + 1) := page])
    ensures Leaves(SetEntry(m[page := Blank()], tabs[At(w, d)], Index(w, d), Table(page)), root,
      tabs[At(w, d + 1) := page], flat)
  {
    hide Spots, InSpace, Up, LeafPte, Index;
    var n := At(w, d + 1);
    ChildOfAt(w, d);
    var tabs' := tabs[n := page];
    var m' := SetEntry(m[page := Blank()], tabs[At(w, d)], Index(w, d), Table(page));
    forall s <- tabs', i | s.level < 3 && 0 <= i < ENTRIES ensures m'[tabs'[s]][i] == Link(tabs', Child(s, i)) {
      if s == n {
        NothingBelow(tabs, flat, d, w, n, i);
      } else {
        assert m[tabs[s]][i] == Link(tabs, Child(s, i));
        if s == At(w, d) && i == Index(w, d) {
        } else {
          assert Child(s, i) != n by {
            if Child(s, i) == n { ChildInjective(s, i, At(w, d), Index(w, d)); }
          }
        }
      }
    }
    forall s <- tabs', i | s.level == 3 && 0 <= i < ENTRIES ensures m'[tabs'[s]][i] == LeafPte(flat, s.q * 512 + i) {
      if s == n {
        NothingBelow(tabs, flat, d, w, n, i);
        LeafPteAt(flat, s.q * 512 + i);
      }
    }
  }

  lemma LeafPteAt(flat: Flat, v: int)
    ensures LeafPte(flat, v) == if v in flat then Page(flat[v]) else Invalid
  {
  }

  lemma AddTable(m: Memory, root: nat, tabs: Tables, flat: Flat, d: int, w: int, page: nat)
    requires Tree(m, root, tabs, flat, d, w) && 0 <= d < 3 && 0 <= w < PAGES
    requires At(w, d) in tabs && At(w, d + 1) !in tabs && page !in m
    ensures tabs[At(w, d)] in m && |m[tabs[At(w, d)]]| == ENTRIES
    ensures Tree(SetEntry(m[page := Blank()], tabs[At(w, d)], Index(w, d), Table(page)), root,
      tabs[At(w, d + 1) := page], flat, d + 1, w)
  {
    hide Spots, InSpace, Up, LeafPte, Index, Links, Leaves, Needed;
    AddSpots(tabs, flat, d, w, page);
    AddStorage(m, root, tabs, At(w, d + 1), page, Blank());
    SetStorage(m[page := Blank()], root, tabs[At(w, d + 1) := page], tabs[At(w, d)], Index(w, d), Table(page));
    AddLinks(m, root, tabs, flat, d, w, page);
  }

  /** The table was there already. */
  lemma KeepTable(m: Memory, root: nat, tabs: Tables, flat: Flat, d: int, w: int)
    requires Tree(m, root, tabs, flat, d, w) && 0 <= d < 3 && At(w, d + 1) in tabs
    ensures Tree(m, root, tabs, flat, d + 1, w)
  {
    hide Storage, Links, Leaves, Under, Up;
    forall s ensures s in tabs <==> Needed(flat, s, d + 1, w) {
      assert s in tabs <==> Needed(flat, s, d, w);
    }
  }

  /** A page mapped under the last table on the way makes the whole way needed. */
  lemma Settle(m: Memory, root: nat, tabs: Tables, flat: Flat, k: int, w: int, v: int)
    requires Tree(m, root, tabs, flat, k, w) && 0 <= k <= 3 && v in flat && Up(v, k) == Up(w, k)
    ensures Tree(m, root, tabs, flat, 0, 0)
  {
    hide Storage, Links, Leaves;
    forall s ensures s in tabs <==> Needed(flat, s, 0, 0) {
      assert s in tabs <==> Needed(flat, s, k, w);
      if 1 <= s.level <= k && s.q == Up(w, s.level) {
        SamePrefix(v, w, k, s.level);
        assert Under(flat, s);
      }
    }
  }

  lemma SamePrefix(v: int, w: int, k: int, d: int)
    requires Up(v, k) == Up(w, k) && 0 <= d <= k <= 4
    ensures Up(v, d) == Up(w, d)
  {
  }

  /** At level 0 nothing depends on the page worked at. */
  lemma AnyPage(m: Memory, root: nat, tabs: Tables, flat: Flat, w: int, w': int)
    requires Tree(m, root, tabs, flat, 0, w)
    ensures Tree(m, root, tabs, flat, 0, w')
  {
    hide Storage, Links, Leaves, Under, Up;
    forall s ensures s in tabs <==> Needed(flat, s, 0, w') {
      assert s in tabs <==> Needed(flat, s, 0, w);
    }
  }

  // ---- a page descriptor is written ----

  ghost predicate SameBut(flat: Flat, flat': Flat, v: int) {
    forall u :: u != v ==> LeafPte(flat', u) == LeafPte(flat, u)
  }

  lemma WriteSpots(tabs: Tables, flat: Flat, flat': Flat, w: int, v: int)
    requires Spots(tabs, flat, 3, w) && Up(v, 3) == Up(w, 3) && SameBut(flat, flat', v)
    ensures Spots(tabs, flat', 3, w)
  {
    forall s ensures s in tabs <==> Needed(flat', s, 3, w) {
      assert s in tabs <==> Needed(flat, s, 3, w);
      if 1 <= s.level <= 3 && s.q != Up(w, s.level) {
        SamePrefix(v, w, 3, s.level);
        UnderBut(flat, flat', s, v);
      }
    }
  }

  lemma UnderBut(flat: Flat, flat': Flat, s: Spot, v: int)
    requires SameBut(flat, flat', v) && Up(v, s.level) != s.q
    ensures Under(flat, s) <==> Under(flat', s)
  {
    hide Up;
    if Under(flat, s) {
      var u :| u in flat && Up(u, s.level) == s.q;
      assert LeafPte(flat', u) == LeafPte(flat, u);
      assert u in flat';
    }
    if Under(flat', s) {
      var u :| u in flat' && Up(u, s.level) == s.q;
      assert LeafPte(flat', u) == LeafPte(flat, u);
      assert u in flat;
    }
  }

  lemma WriteLeaf(m: Memory, root: nat, tabs: Tables, flat: Flat, flat': Flat, w: int, v: int)
    requires Tree(m, root, tabs, flat, 3, w) && 0 <= v < PAGES && 0 <= w < PAGES && Up(v, 3) == Up(w, 3)
    requires SameBut(flat, flat', v)
    ensures At(v, 3) in tabs && tabs[At(v, 3)] in m && |m[tabs[At(v, 3)]]| == ENTRIES
    ensures Tree(SetEntry(m, tabs[At(v, 3)], Index(v, 3), LeafPte(flat', v)), root, tabs, flat', 3, w)
  {
    hide Spots, Up, Under, Needed, Index, LeafPte, Links, Leaves;
    WayHasTables(tabs, flat, 3, w, 3);
    var t, i := tabs[At(v, 3)], Index(v, 3);
    var m' := SetEntry(m, t, i, LeafPte(flat', v));
    SetStorage(m, root, tabs, t, i, LeafPte(flat', v));
    WriteSpots(tabs, flat, flat', w, v);
    WriteLinks(m, root, tabs, flat, flat', v);
    forall u <- flat' ensures 0 <= u < PAGES { LeafPteAt(flat, u); LeafPteAt(flat', u); }
  }

  lemma WriteLinks(m: Memory, root: nat, tabs: Tables, flat: Flat, flat': Flat, v: int)
    requires Storage(m, root, tabs) && Links(m, root, tabs) && Leaves(m, root, tabs, flat)
    requires 0 <= v < PAGES && SameBut(flat, flat', v) && At(v, 3) in tabs
    requires Storage(SetEntry(m, tabs[At(v, 3)], Index(v, 3), LeafPte(flat', v)), root, tabs)
    ensures Links(SetEntry(m, tabs[At(v, 3)], Index(v, 3), LeafPte(flat', v)), root, tabs)
    ensures Leaves(SetEntry(m, tabs[At(v, 3)], Index(v, 3), LeafPte(flat', v)), root, tabs, flat')
  {
    hide Up, Index, LeafPte;
    var t, i := tabs[At(v, 3)], Index(v, 3);
    var m' := SetEntry(m, t, i, LeafPte(flat', v));
    ChildOfAt(v, 3);
    UpLast(v);
    forall s <- tabs, j | s.level == 3 && 0 <= j < ENTRIES ensures m'[tabs[s]][j] == LeafPte(flat', s.q * 512 + j) {
      assert m[tabs[s]][j] == LeafPte(flat, s.q * 512 + j);
      if s != At(v, 3) || j != i {
        if s.q * 512 + j == v { ChildInjective(s, j, At(v, 3), i); }
      }
    }
  }

  // ---- an empty table is released ----

  /** An empty table on the way is not needed by any mapped page. */
  lemma EmptyUnused(m: Memory, root: nat, tabs: Tables, flat: Flat, d: int, w: int)
    requires Tree(m, root, tabs, flat, d, w) && 1 <= d <= 3 && 0 <= w < PAGES && At(w, d) in tabs
    requires forall i :: 0 <= i < ENTRIES ==> m[tabs[At(w, d)]][i] == Invalid
    ensures !Under(flat, At(w, d))
  {
    hide Storage, Links, Leaves;
    if Under(flat, At(w, d)) {
      var v :| v in flat && Up(v, d) == Up(w, d);
      if d < 3 { MappedHasTables(tabs, flat, d, w, v, d + 1); }
      Walk(m, root, tabs, flat, d, w, v, d);
    }
  }

  /** A table with a valid descriptor is needed, and with it the whole way. */
  lemma NonEmptySettles(m: Memory, root: nat, tabs: Tables, flat: Flat, d: int, w: int, i: int)
    requires Tree(m, root, tabs, flat, d, w) && 1 <= d <= 3 && 0 <= w < PAGES && At(w, d) in tabs
    requires 0 <= i < ENTRIES && tabs[At(w, d)] in m && |m[tabs[At(w, d)]]| == ENTRIES
      && m[tabs[At(w, d)]][i] != Invalid
    ensures Tree(m, root, tabs, flat, 0, 0)
  {
    hide Storage, Up, Needed;
    var s := At(w, d);
    if d == 3 {
      assert m[tabs[s]][i] == LeafPte(flat, s.q * 512 + i);
      UpOfChild(s, i);
      Settle(m, root, tabs, flat, d, w, s.q * 512 + i);
    } else {
      assert m[tabs[s]][i] == Link(tabs, Child(s, i));
      assert Needed(flat, Child(s, i), d, w);
      DeeperNeeded(flat, Child(s, i), d, w);
      var v :| v in flat && Up(v, d + 1) == s.q * 512 + i;
      UpDown(v, d, s.q, i);
      Settle(m, root, tabs, flat, d, w, v);
    }
  }

  lemma DeeperNeeded(flat: Flat, s: Spot, d: int, w: int)
    requires Needed(flat, s, d, w) && s.level == d + 1 && d >= 0
    ensures Under(flat, s)
  {
  }

  lemma UpOfChild(s: Spot, i: int)
    requires 0 <= i < ENTRIES
    ensures Up(s.q * 512 + i, 3) == s.q
  {
  }

  lemma UpDown(v: int, d: int, q: int, i: int)
    requires 0 <= v < PAGES && 1 <= d <= 3 && Up(v, d + 1) == q * 512 + i && 0 <= i < ENTRIES
    ensures Up(v, d) == q
  {
  }

  lemma DropSpots(tabs: Tables, flat: Flat, d: int, w: int)
    requires Spots(tabs, flat, d, w) && 1 <= d <= 3 && !Under(flat, At(w, d))
    ensures Spots(tabs - {At(w, d)}, flat, d - 1, w)
  {
    hide Up, Under;
    var tabs' := tabs - {At(w, d)};
    forall s ensures s in tabs' <==> Needed(flat, s, d - 1, w) {
      assert s in tabs <==> Needed(flat, s, d, w);
    }
  }

  lemma DropStorage(m: Memory, root: nat, tabs: Tables, s: Spot)
    requires Storage(m, root, tabs) && s in tabs && s != ROOT
    ensures Storage(m - {tabs[s]}, root, tabs - {s})
  {
    var m', tabs' := m - {tabs[s]}, tabs - {s};
    forall p <- m' ensures exists x <- tabs' :: tabs'[x] == p {
      var x :| x in tabs && tabs[x] == p;
      assert x in tabs' && tabs'[x] == p;
    }
  }

  lemma DropLinks(m: Memory, root: nat, tabs: Tables, flat: Flat, d: int, w: int)
    requires Tree(m, root, tabs, flat, d + 1, w) && 0 <= d <= 2 && 0 <= w < PAGES
    requires At(w, d) in tabs && At(w, d + 1) in tabs
    requires Storage(SetEntry(m, tabs[At(w, d)], Index(w, d), Invalid) - {tabs[At(w, d + 1)]}, root,
      tabs - {At(w, d + 1)})
    ensures Links(SetEntry(m, tabs[At(w, d)], Index(w, d), Invalid) - {tabs[At(w, d + 1)]}, root, tabs - {At(w, d + 1)})
    ensures Leaves(SetEntry(m, tabs[At(w, d)], Index(w, d), Invalid) - {tabs[At(w, d + 1)]}, root,
      tabs - {At(w, d + 1)}, flat)
  {
    hide Spots, InSpace, Up, LeafPte, Index;
    var n := At(w, d + 1);
    ChildOfAt(w, d);
    var tabs' := tabs - {n};
    var m' := SetEntry(m, tabs[At(w, d)], Index(w, d), Invalid) - {tabs[n]};
    forall s <- tabs', i | s.level < 3 && 0 <= i < ENTRIES ensures m'[tabs'[s]][i] == Link(tabs', Child(s, i)) {
      assert m[tabs[s]][i] == Link(tabs, Child(s, i));
      if s != At(w, d) || i != Index(w, d) {
        if Child(s, i) == n { ChildInjective(s, i, At(w, d), Index(w, d)); }
      }
    }
    forall s <- tabs', i | s.level == 3 && 0 <= i < ENTRIES ensures m'[tabs'[s]][i] == LeafPte(flat, s.q * 512 + i) {
      assert m[tabs[s]][i] == LeafPte(flat, s.q * 512 + i);
    }
  }

  lemma DropTable(m: Memory, root: nat, tabs: Tables, flat: Flat, d: int, w: int)
    requires Tree(m, root, tabs, flat, d + 1, w) && 0 <= d <= 2 && 0 <= w < PAGES
    requires At(w, d) in tabs && At(w, d + 1) in tabs && !Under(flat, At(w, d + 1))
    ensures tabs[At(w, d)] in m && |m[tabs[At(w, d)]]| == ENTRIES
    ensures Tree(SetEntry(m, tabs[At(w, d)], Index(w, d), Invalid) - {tabs[At(w, d + 1)]}, root,
      tabs - {At(w, d + 1)}, flat, d, w)
  {
    hide Spots, InSpace, Up, LeafPte, Index, Links, Leaves, Needed, Under;
    DropSpots(tabs, flat, d + 1, w);
    SetStorage(m, root, tabs, tabs[At(w, d)], Index(w, d), Invalid);
    DropStorage(SetEntry(m, tabs[At(w, d)], Index(w, d), Invalid), root, tabs, At(w, d + 1));
    DropLinks(m, root, tabs, flat, d, w);
  }
}
