/** Shapes of the kernel's intrusive red-black tree.

The nodes of the tree are heap objects that carry child, parent and colour fields.
This module describes what a correctly linked tree looks like: a `Tree` value lists the
node objects in their places, and a `Path` is a tree with one subtree taken out, read
from that subtree up to the root. The fix-up loops move along a path, so their
invariants speak of one path and one subtree.
*/
module RbShape {

  datatype Color = Red | Black

  /** `struct rb_node`. Comparison functions receive the nodes themselves. */
  class RbNode {
    var left: RbNode?
    var right: RbNode?
    var parent: RbNode?
    var color: Color

    constructor ()
    {
      left, right, parent, color := null, null, null, Red;
    }
  }

  datatype Tree = Nil | Bin(l: Tree, n: RbNode, c: Color, r: Tree)

  /** The surroundings of a subtree: at `GoLeft` the subtree is the left child of `n`. */
  datatype Path =
    | Here
    | GoLeft(up: Path, n: RbNode, c: Color, sib: Tree)
    | GoRight(up: Path, n: RbNode, c: Color, sib: Tree)

  // ---------- contents ----------

  ghost function Top(t: Tree): (r: RbNode?)
    ensures r != null ==> r in Nodes(t)
  {
    if t.Nil? then null else t.n
  }

  ghost function Holder(z: Path): (r: RbNode?)
    ensures r != null ==> r in PathNodes(z)
  {
    if z.Here? then null else z.n
  }

  ghost function Nodes(t: Tree): set<RbNode> {
    if t.Nil? then {} else Nodes(t.l) + {t.n} + Nodes(t.r)
  }

  ghost function PathNodes(z: Path): set<RbNode> {
    if z.Here? then {} else PathNodes(z.up) + {z.n} + Nodes(z.sib)
  }

  ghost function InOrder(t: Tree): seq<RbNode> {
    if t.Nil? then [] else InOrder(t.l) + [t.n] + InOrder(t.r)
  }

  /** The nodes that come before the missing subtree. */
  ghost function Before(z: Path): seq<RbNode> {
    match z
    case Here => []
    case GoLeft(up, _, _, _) => Before(up)
    case GoRight(up, n, _, sib) => Before(up) + InOrder(sib) + [n]
  }

  ghost function After(z: Path): seq<RbNode> {
    match z
    case Here => []
    case GoLeft(up, n, _, sib) => [n] + InOrder(sib) + After(up)
    case GoRight(up, _, _, _) => After(up)
  }

  ghost function Plug(z: Path, t: Tree): Tree {
    match z
    case Here => t
    case GoLeft(up, n, c, sib) => Plug(up, Bin(t, n, c, sib))
    case GoRight(up, n, c, sib) => Plug(up, Bin(sib, n, c, t))
  }

  ghost function Length(z: Path): nat {
    if z.Here? then 0 else 1 + Length(z.up)
  }

  lemma {:induction false} PlugInOrder(z: Path, t: Tree)
    ensures InOrder(Plug(z, t)) == Before(z) + InOrder(t) + After(z)
  {
    match z
    case Here =>
    case GoLeft(up, n, c, sib) =>
      var s := Bin(t, n, c, sib);
      PlugInOrder(up, s);
      assert InOrder(s) == InOrder(t) + [n] + InOrder(sib);
      assert Before(up) + InOrder(s) + After(up) == Before(up) + InOrder(t) + ([n] + InOrder(sib) + After(up));
    case GoRight(up, n, c, sib) =>
      var s := Bin(sib, n, c, t);
      PlugInOrder(up, s);
      assert InOrder(s) == InOrder(sib) + [n] + InOrder(t);
      assert Before(up) + InOrder(s) + After(up) == (Before(up) + InOrder(sib) + [n]) + InOrder(t) + After(up);
  }

  lemma {:induction false} PlugNodes(z: Path, t: Tree)
    ensures Nodes(Plug(z, t)) == PathNodes(z) + Nodes(t)
  {
    match z
    case Here =>
    case GoLeft(up, n, c, sib) => PlugNodes(up, Bin(t, n, c, sib));
    case GoRight(up, n, c, sib) => PlugNodes(up, Bin(sib, n, c, t));
  }

  lemma {:induction false} InOrderNodes(t: Tree)
    ensures Elems(InOrder(t)) == Nodes(t)
  {
    if t.Bin? {
      InOrderNodes(t.l);
      InOrderNodes(t.r);
      ElemsThree(InOrder(t.l), t.n, InOrder(t.r));
    }
  }

  ghost function Elems(s: seq<RbNode>): set<RbNode> {
    set x | x in s
  }

  lemma ElemsThree(l: seq<RbNode>, n: RbNode, r: seq<RbNode>)
    ensures Elems(l + [n] + r) == Elems(l) + {n} + Elems(r)
  {
  }

  // ---------- no node twice ----------

  ghost predicate Distinct(t: Tree) {
    t.Bin? ==>
      && Distinct(t.l) && Distinct(t.r)
      && t.n !in Nodes(t.l) && t.n !in Nodes(t.r)
      && Nodes(t.l) !! Nodes(t.r)
  }

  ghost predicate PathDistinct(z: Path) {
    !z.Here? ==>
      && PathDistinct(z.up) && Distinct(z.sib)
      && z.n !in Nodes(z.sib) && z.n !in PathNodes(z.up)
      && Nodes(z.sib) !! PathNodes(z.up)
  }

  ghost predicate Apart(z: Path, t: Tree) {
    Distinct(t) && PathDistinct(z) && PathNodes(z) !! Nodes(t)
  }

  lemma {:induction false} PlugDistinct(z: Path, t: Tree)
    ensures Distinct(Plug(z, t)) <==> Apart(z, t)
  {
    match z
    case Here =>
    case GoLeft(up, n, c, sib) => PlugDistinct(up, Bin(t, n, c, sib));
    case GoRight(up, n, c, sib) => PlugDistinct(up, Bin(sib, n, c, t));
  }

  ghost predicate NoDup(s: seq<RbNode>) {
    forall x <- s :: multiset(s)[x] <= 1
  }

  lemma Twice(s: seq<RbNode>, a: nat, b: nat)
    requires a < b < |s| && s[a] == s[b]
    ensures multiset(s)[s[a]] >= 2
  {
    assert s == s[..b] + s[b..];
    assert s[..b][a] == s[a] && s[b..][0] == s[b];
    assert multiset(s)[s[a]] == multiset(s[..b])[s[a]] + multiset(s[b..])[s[a]];
  }

  /** A node stands in one place of the order. */
  lemma OnlyAt(s: seq<RbNode>, i: nat)
    requires NoDup(s) && i < |s|
    ensures forall j :: 0 <= j < |s| && s[j] == s[i] ==> j == i
  {
    forall j | 0 <= j < |s| && s[j] == s[i] ensures j == i {
      if j < i { Twice(s, j, i); } else if i < j { Twice(s, i, j); }
    }
  }

  lemma {:induction false} DistinctInOrder(t: Tree)
    ensures Distinct(t) <==> NoDup(InOrder(t))
  {
    if t.Bin? {
      var l, r := InOrder(t.l), InOrder(t.r);
      DistinctInOrder(t.l);
      DistinctInOrder(t.r);
      InOrderNodes(t.l);
      InOrderNodes(t.r);
      NoDupThree(l, t.n, r);
    }
  }

  lemma NoDupThree(l: seq<RbNode>, n: RbNode, r: seq<RbNode>)
    ensures NoDup(l + [n] + r) <==>
      NoDup(l) && NoDup(r) && n !in Elems(l) && n !in Elems(r) && Elems(l) !! Elems(r)
  {
    var s := l + [n] + r;
    assert multiset(s) == multiset(l) + multiset([n]) + multiset(r);
    ElemsThree(l, n, r);
    if NoDup(s) {
      assert n in Elems(s);
      forall x | x in Elems(l) ensures x !in Elems(r) && multiset(l)[x] <= 1 {
        assert x in Elems(s) && multiset(s)[x] <= 1;
      }
      forall x | x in Elems(r) ensures multiset(r)[x] <= 1 {
        assert x in Elems(s) && multiset(s)[x] <= 1;
      }
    } else {
      var x :| x in s && multiset(s)[x] > 1;
      assert x in Elems(s);
    }
  }

  ghost function Order(z: Path, t: Tree): seq<RbNode> {
    Before(z) + InOrder(t) + After(z)
  }

  /** The nodes and their distinctness depend on the order alone. */
  lemma Reshape(z: Path, t: Tree, y: Path, s: Tree)
    requires Order(z, t) == Order(y, s)
    ensures Apart(z, t) <==> Apart(y, s)
    ensures PathNodes(z) + Nodes(t) == PathNodes(y) + Nodes(s)
  {
    var a, b := Plug(z, t), Plug(y, s);
    assert InOrder(a) == InOrder(b) by {
      PlugInOrder(z, t);
      PlugInOrder(y, s);
    }
    SameOrder(a, b);
    PlugDistinct(z, t);
    PlugDistinct(y, s);
    PlugNodes(z, t);
    PlugNodes(y, s);
  }

  lemma SameOrder(a: Tree, b: Tree)
    requires InOrder(a) == InOrder(b)
    ensures Distinct(a) <==> Distinct(b)
    ensures Nodes(a) == Nodes(b)
  {
    DistinctInOrder(a);
    DistinctInOrder(b);
    InOrderNodes(a);
    InOrderNodes(b);
  }

  /** The subtree one level up. */
  ghost function Up(z: Path, t: Tree): (s: Tree)
    requires !z.Here?
    ensures s.Bin? && s.n == z.n
  {
    if z.GoLeft? then Bin(t, z.n, z.c, z.sib) else Bin(z.sib, z.n, z.c, t)
  }

  lemma OrderUp(z: Path, t: Tree)
    requires !z.Here?
    ensures Order(z, t) == Order(z.up, Up(z, t))
  {
    PlugInOrder(z, t);
    PlugInOrder(z.up, Up(z, t));
  }

  lemma RotateOrder(t1: Tree, a: RbNode, t2: Tree, b: RbNode, t3: Tree, x: Color, y: Color, u: Color, v: Color)
    ensures InOrder(Bin(Bin(t1, a, x, t2), b, y, t3)) == InOrder(Bin(t1, a, u, Bin(t2, b, v, t3)))
  {
  }

  lemma DoubleOrder(t1: Tree, a: RbNode, t: Tree, b: RbNode, t4: Tree, c1: Color, c2: Color,
                    x: Color, y: Color, v: Color)
    requires t.Bin?
    ensures InOrder(Bin(Bin(t1, a, c1, t), b, c2, t4))
         == InOrder(Bin(Bin(t1, a, x, t.l), t.n, y, Bin(t.r, b, v, t4)))
  {
    RotateOrder(t1, a, t.l, t.n, t.r, x, y, c1, t.c);
    var l := Bin(Bin(t1, a, x, t.l), t.n, y, t.r);
    assert InOrder(l) == InOrder(Bin(t1, a, c1, t));
    RotateOrder(Bin(t1, a, x, t.l), t.n, t.r, b, t4, y, c2, y, v);
  }

  lemma DoubleOrderMirror(t1: Tree, a: RbNode, t: Tree, b: RbNode, t4: Tree, c1: Color, c2: Color,
                          x: Color, y: Color, v: Color)
    requires t.Bin?
    ensures InOrder(Bin(t1, a, c2, Bin(t, b, c1, t4)))
         == InOrder(Bin(Bin(t1, a, x, t.l), t.n, y, Bin(t.r, b, v, t4)))
  {
    DoubleOrder(t1, a, t, b, t4, c1, c2, x, y, v);
    RotateOrder(t1, a, t, b, t4, c1, c2, c2, c1);
  }

  // ---------- linked in the heap ----------

  /** What the fields of one node hold. */
  datatype Fields = Fields(left: RbNode?, right: RbNode?, parent: RbNode?, color: Color)

  /** What every node of `t` must hold when the top of `t` points up to `p`. */
  ghost function Layout(t: Tree, p: RbNode?): (m: map<RbNode, Fields>)
    ensures m.Keys == Nodes(t)
  {
    match t
    case Nil => map[]
    case Bin(l, n, c, r) => (Layout(l, n) + Layout(r, n))[n := Fields(Top(l), Top(r), p, c)]
  }

  /** What everything around a subtree with top `top` must hold. */
  ghost function PathLayout(z: Path, top: RbNode?): (m: map<RbNode, Fields>)
    ensures m.Keys == PathNodes(z)
  {
    match z
    case Here => map[]
    case GoLeft(up, n, c, sib) =>
      (PathLayout(up, n) + Layout(sib, n))[n := Fields(top, Top(sib), Holder(up), c)]
    case GoRight(up, n, c, sib) =>
      (PathLayout(up, n) + Layout(sib, n))[n := Fields(Top(sib), top, Holder(up), c)]
  }

  /** The fields of many nodes, as one value. */
  type Memory = map<RbNode, Fields>

  ghost predicate In(part: Memory, m: Memory) {
    forall x <- part :: x in m && m[x] == part[x]
  }

  /** In memory `m` the nodes of `t` hold exactly the links and colours that `t` shows,
  and the top of `t` points up to `p`. */
  ghost predicate Linked(m: Memory, t: Tree, p: RbNode?) {
    In(Layout(t, p), m)
  }

  /** As `Linked`, for everything around a subtree whose top is `top`. */
  ghost predicate PathLinked(m: Memory, z: Path, top: RbNode?) {
    In(PathLayout(z, top), m)
  }

  lemma LinkedBin(m: Memory, t: Tree, p: RbNode?)
    requires t.Bin? && Distinct(t)
    ensures Linked(m, t, p) <==>
      && t.n in m && m[t.n] == Fields(Top(t.l), Top(t.r), p, t.c)
      && Linked(m, t.l, t.n) && Linked(m, t.r, t.n)
  {
    var w, wl, wr := Layout(t, p), Layout(t.l, t.n), Layout(t.r, t.n);
    assert forall x <- wl :: x in w && w[x] == wl[x];
    assert forall x <- wr :: x in w && w[x] == wr[x];
    assert t.n in w && w[t.n] == Fields(Top(t.l), Top(t.r), p, t.c);
    assert forall x <- w :: x == t.n || x in wl || x in wr;
  }

  ghost function HolderFields(z: Path, top: RbNode?): Fields
    requires !z.Here?
  {
    if z.GoLeft? then Fields(top, Top(z.sib), Holder(z.up), z.c) else Fields(Top(z.sib), top, Holder(z.up), z.c)
  }

  lemma PathLinkedStep(m: Memory, z: Path, top: RbNode?)
    requires !z.Here? && PathDistinct(z)
    ensures PathLinked(m, z, top) <==>
      && z.n in m && m[z.n] == HolderFields(z, top)
      && Linked(m, z.sib, z.n) && PathLinked(m, z.up, z.n)
  {
    var w, wu, ws := PathLayout(z, top), PathLayout(z.up, z.n), Layout(z.sib, z.n);
    assert forall x <- wu :: x in w && w[x] == wu[x];
    assert forall x <- ws :: x in w && w[x] == ws[x];
    assert z.n in w && w[z.n] == HolderFields(z, top);
    assert forall x <- w :: x == z.n || x in wu || x in ws;
  }

  /** The topmost node of the whole tree. */
  ghost function Outer(z: Path, top: RbNode?): RbNode? {
    if z.Here? then top else Outer(z.up, z.n)
  }

  lemma {:induction false} PlugTop(z: Path, t: Tree)
    ensures Top(Plug(z, t)) == Outer(z, Top(t))
  {
    match z
    case Here =>
    case GoLeft(up, n, c, sib) => PlugTop(up, Bin(t, n, c, sib));
    case GoRight(up, n, c, sib) => PlugTop(up, Bin(sib, n, c, t));
  }

  lemma {:induction false} PlugLinked(m: Memory, z: Path, t: Tree)
    requires Apart(z, t)
    ensures Linked(m, Plug(z, t), null) <==> Linked(m, t, Holder(z)) && PathLinked(m, z, Top(t))
  {
    match z
    case Here =>
    case GoLeft(up, n, c, sib) =>
      var s := Bin(t, n, c, sib);
      PlugLinked(m, up, s);
      LinkedBin(m, s, Holder(up));
      PathLinkedStep(m, z, Top(t));
    case GoRight(up, n, c, sib) =>
      var s := Bin(sib, n, c, t);
      PlugLinked(m, up, s);
      LinkedBin(m, s, Holder(up));
      PathLinkedStep(m, z, Top(t));
  }

  // ---------- red-black balance ----------

  ghost predicate RedTop(t: Tree) {
    t.Bin? && t.c.Red?
  }

  /** Every way down meets `h` black nodes and no red node has a red child. */
  ghost predicate Balanced(t: Tree, h: int)
    decreases t
  {
    match t
    case Nil => h == 0
    case Bin(l, _, Red, r) => Balanced(l, h) && Balanced(r, h) && !RedTop(l) && !RedTop(r)
    case Bin(l, _, Black, r) => Balanced(l, h - 1) && Balanced(r, h - 1)
  }

  lemma {:induction false} BalancedHeight(t: Tree, h: int)
    requires Balanced(t, h)
    ensures h >= 0
    ensures t.Bin? && t.c.Black? ==> h >= 1
    ensures h >= 1 ==> t.Bin?
  {
    if t.Bin? {
      if t.c.Red? { BalancedHeight(t.l, h); } else { BalancedHeight(t.l, h - 1); }
    }
  }

  ghost predicate RedBlack(t: Tree) {
    !RedTop(t) && exists h :: Balanced(t, h)
  }

  /** A path that makes a red-black tree of any subtree of black height `h`
  whose top is not red under a red holder. */
  ghost predicate PathBalanced(z: Path, h: int)
    decreases z
  {
    !z.Here? ==>
      && Balanced(z.sib, h)
      && (z.c.Red? ==> !RedTop(z.sib) && !z.up.Here? && z.up.c.Black?)
      && PathBalanced(z.up, if z.c.Black? then h + 1 else h)
  }

  /** A red top may not hang under a red holder nor be the root. */
  ghost predicate RedAllowed(z: Path) {
    !z.Here? && z.c.Black?
  }

  lemma {:induction false} PlugBalanced(z: Path, t: Tree, h: int)
    requires PathBalanced(z, h) && Balanced(t, h)
    requires RedTop(t) ==> RedAllowed(z)
    ensures RedBlack(Plug(z, t))
  {
    match z
    case Here =>
    case GoLeft(up, n, c, sib) =>
      PlugBalanced(up, Bin(t, n, c, sib), if c.Black? then h + 1 else h);
    case GoRight(up, n, c, sib) =>
      PlugBalanced(up, Bin(sib, n, c, t), if c.Black? then h + 1 else h);
  }

  /** Taking a red-black tree apart at any place. */
  lemma {:induction false} UnplugBalanced(z: Path, t: Tree) returns (h: int)
    requires RedBlack(Plug(z, t))
    ensures PathBalanced(z, h) && Balanced(t, h)
    ensures RedTop(t) ==> RedAllowed(z)
  {
    match z
    case Here =>
      h :| Balanced(t, h);
    case GoLeft(up, n, c, sib) =>
      var k := UnplugBalanced(up, Bin(t, n, c, sib));
      h := if c.Black? then k - 1 else k;
    case GoRight(up, n, c, sib) =>
      var k := UnplugBalanced(up, Bin(sib, n, c, t));
      h := if c.Black? then k - 1 else k;
  }

  // ---------- finding a node's place ----------

  /** Every node of a tree is the top of some subtree in some path. */
  lemma {:induction false} Locate(z: Path, t: Tree, x: RbNode) returns (zz: Path, s: Tree)
    requires x in Nodes(t)
    ensures Plug(zz, s) == Plug(z, t) && s.Bin? && s.n == x
    decreases t
  {
    if x == t.n {
      zz, s := z, t;
    } else if x in Nodes(t.l) {
      zz, s := Locate(GoLeft(z, t.n, t.c, t.r), t.l, x);
    } else {
      zz, s := Locate(GoRight(z, t.n, t.c, t.l), t.r, x);
    }
  }

  // ---------- rewriting the links ----------

  ghost predicate Has(m: Memory, t: RbNode?) {
    t != null ==> t in m
  }

  ghost function SetParent(m: Memory, t: RbNode?, p: RbNode?): (w: Memory)
    requires Has(m, t)
    ensures w.Keys == m.Keys
  {
    if t == null then m else m[t := m[t].(parent := p)]
  }

  /** Memories that agree on the nodes of a tree. */
  ghost predicate Same(m: Memory, w: Memory, s: set<RbNode>) {
    forall x <- s :: x in m && x in w && w[x] == m[x]
  }

  lemma LinkedFrame(m: Memory, w: Memory, t: Tree, p: RbNode?)
    requires Linked(m, t, p) && Same(m, w, Nodes(t))
    ensures Linked(w, t, p)
  {
  }

  lemma TopIn(m: Memory, t: Tree, p: RbNode?)
    requires Linked(m, t, p)
    ensures Nodes(t) <= m.Keys
    ensures Has(m, Top(t))
  {
    forall x <- Nodes(t) ensures x in m {
      assert x in Layout(t, p);
    }
  }

  lemma SetParentLinks(m: Memory, t: Tree, q: RbNode?, p: RbNode?)
    requires Distinct(t) && Linked(m, t, q)
    ensures Has(m, Top(t))
    ensures Linked(SetParent(m, Top(t), p), t, p)
  {
    TopIn(m, t, q);
    if t.Bin? {
      LinkedBin(m, t, q);
      LinkedBin(SetParent(m, t.n, p), t, p);
    }
  }

  /** Hangs two subtrees under one node. */
  ghost function Adopt(m: Memory, n: RbNode, t1: RbNode?, t2: RbNode?): (w: Memory)
    requires n in m && Has(m, t1) && Has(m, t2)
    ensures w.Keys == m.Keys
  {
    var m1 := SetParent(m[n := m[n].(left := t1)], t1, n);
    SetParent(m1[n := m1[n].(right := t2)], t2, n)
  }

  lemma AdoptOne(m: Memory, n: RbNode, f: Fields, t: Tree, q: RbNode?)
    requires n in m && n !in Nodes(t) && Distinct(t) && Linked(m, t, q)
    ensures Has(m, Top(t))
    ensures var w := SetParent(m[n := f], Top(t), n);
      && Linked(w, t, n) && w[n] == f
      && forall x <- m :: x != n && x !in Nodes(t) ==> w[x] == m[x]
  {
    TopIn(m, t, q);
    var ma := m[n := f];
    LinkedFrame(m, ma, t, q);
    SetParentLinks(ma, t, q, n);
  }

  lemma AdoptLinks(m: Memory, s: Tree, q1: RbNode?, q2: RbNode?)
    requires s.Bin? && Distinct(s) && s.n in m
    requires Linked(m, s.l, q1) && Linked(m, s.r, q2)
    ensures Has(m, Top(s.l)) && Has(m, Top(s.r))
    ensures var w := Adopt(m, s.n, Top(s.l), Top(s.r));
      && Linked(w, s.l, s.n) && Linked(w, s.r, s.n)
      && w[s.n] == m[s.n].(left := Top(s.l), right := Top(s.r))
      && forall x <- m :: x !in Nodes(s) ==> w[x] == m[x]
  {
    TopIn(m, s.l, q1);
    TopIn(m, s.r, q2);
    var f := m[s.n].(left := Top(s.l));
    AdoptOne(m, s.n, f, s.l, q1);
    var mb := SetParent(m[s.n := f], Top(s.l), s.n);
    assert Same(m, mb, Nodes(s.r));
    LinkedFrame(m, mb, s.r, q2);
    var g := f.(right := Top(s.r));
    AdoptOne(mb, s.n, g, s.r, q2);
    var mc := SetParent(mb[s.n := g], Top(s.r), s.n);
    assert mc == Adopt(m, s.n, Top(s.l), Top(s.r));
    TopIn(mb, s.l, s.n);
    assert Same(mb, mc, Nodes(s.l));
    LinkedFrame(mb, mc, s.l, s.n);
  }

  lemma AdoptWhole(m: Memory, s: Tree, q1: RbNode?, q2: RbNode?)
    requires s.Bin? && Distinct(s) && s.n in m && m[s.n].color == s.c
    requires Linked(m, s.l, q1) && Linked(m, s.r, q2)
    ensures Has(m, Top(s.l)) && Has(m, Top(s.r))
    ensures var w := Adopt(m, s.n, Top(s.l), Top(s.r));
      && Linked(w, s, m[s.n].parent) && w[s.n].parent == m[s.n].parent
      && forall x <- m :: x !in Nodes(s) ==> w[x] == m[x]
  {
    AdoptLinks(m, s, q1, q2);
    LinkedBin(Adopt(m, s.n, Top(s.l), Top(s.r)), s, m[s.n].parent);
  }

  /** Puts `b` above `a` and `c`. */
  ghost function Crown(m: Memory, a: RbNode, b: RbNode, c: RbNode): (w: Memory)
    requires a in m && b in m && c in m
    ensures w.Keys == m.Keys
  {
    SetParent(SetParent(m[b := m[b].(left := a, right := c)], a, b), c, b)
  }

  lemma CrownLinks(m: Memory, s: Tree)
    requires s.Bin? && s.l.Bin? && s.r.Bin? && Distinct(s)
    requires s.l.n in m && s.n in m && s.r.n in m && m[s.n].color == s.c
    requires Linked(m, s.l, m[s.l.n].parent) && Linked(m, s.r, m[s.r.n].parent)
    ensures var w := Crown(m, s.l.n, s.n, s.r.n);
      && Linked(w, s, m[s.n].parent)
      && forall x <- m :: x !in Nodes(s) ==> w[x] == m[x]
  {
    var p, q := m[s.l.n].parent, m[s.r.n].parent;
    var f := m[s.n].(left := s.l.n, right := s.r.n);
    AdoptOne(m, s.n, f, s.l, p);
    var mb := SetParent(m[s.n := f], s.l.n, s.n);
    TopIn(m, s.r, q);
    assert Same(m, mb, Nodes(s.r));
    LinkedFrame(m, mb, s.r, q);
    AdoptOne(mb, s.n, f, s.r, q);
    assert mb[s.n := f] == mb;
    var w := SetParent(mb, s.r.n, s.n);
    TopIn(mb, s.l, s.n);
    assert Same(mb, w, Nodes(s.l));
    LinkedFrame(mb, w, s.l, s.n);
    LinkedBin(w, s, m[s.n].parent);
  }

  /** `__connect34`: `b` above `a` and `c`, with four subtrees below. */
  ghost function Connect34(m: Memory, a: RbNode, b: RbNode, c: RbNode,
                           t1: RbNode?, t2: RbNode?, t3: RbNode?, t4: RbNode?): (w: Memory)
    requires a in m && b in m && c in m && Has(m, t1) && Has(m, t2) && Has(m, t3) && Has(m, t4)
    ensures w.Keys == m.Keys
  {
    Crown(Adopt(Adopt(m, a, t1, t2), c, t3, t4), a, b, c)
  }

  lemma Connect34Links(m: Memory, s: Tree, q1: RbNode?, q2: RbNode?, q3: RbNode?, q4: RbNode?)
    requires s.Bin? && s.l.Bin? && s.r.Bin? && Distinct(s)
    requires s.l.n in m && s.n in m && s.r.n in m
    requires Linked(m, s.l.l, q1) && Linked(m, s.l.r, q2) && Linked(m, s.r.l, q3) && Linked(m, s.r.r, q4)
    requires m[s.l.n].color == s.l.c && m[s.n].color == s.c && m[s.r.n].color == s.r.c
    ensures Has(m, Top(s.l.l)) && Has(m, Top(s.l.r)) && Has(m, Top(s.r.l)) && Has(m, Top(s.r.r))
    ensures var w := Connect34(m, s.l.n, s.n, s.r.n, Top(s.l.l), Top(s.l.r), Top(s.r.l), Top(s.r.r));
      && Linked(w, s, m[s.n].parent)
      && forall x <- m :: x !in Nodes(s) ==> w[x] == m[x]
  {
    AdoptWhole(m, s.l, q1, q2);
    var m1 := Adopt(m, s.l.n, Top(s.l.l), Top(s.l.r));
    Elsewhere(m, m1, Nodes(s.l), s.r.l, q3);
    Elsewhere(m, m1, Nodes(s.l), s.r.r, q4);
    AdoptWhole(m1, s.r, q3, q4);
    var m2 := Adopt(m1, s.r.n, Top(s.r.l), Top(s.r.r));
    Elsewhere(m1, m2, Nodes(s.r), s.l, m[s.l.n].parent);
    CrownLinks(m2, s);
  }

  /** A tree keeps its links when only other nodes change. */
  lemma Elsewhere(m: Memory, w: Memory, changed: set<RbNode>, t: Tree, p: RbNode?)
    requires m.Keys == w.Keys && Linked(m, t, p) && Nodes(t) !! changed
    requires forall x <- m :: x !in changed ==> w[x] == m[x]
    ensures Linked(w, t, p)
    ensures Has(m, Top(t))
  {
    TopIn(m, t, p);
  }
}
