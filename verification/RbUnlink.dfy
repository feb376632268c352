/** The steps of `__rb_erase`: taking one node out of the links. */
module RbUnlink {
  import opened RbShape
  import opened RbMoves

  /** Only the nodes of the tree matter. */
  lemma OpenAgree(m: Memory, w: Memory, root: RbNode?, z: Path, t: Tree)
    requires Open(m, root, z, t) && Same(m, w, PathNodes(z) + Nodes(t))
    ensures Open(w, root, z, t)
  {
    assert Same(m, w, Nodes(t));
    LinkedFrame(m, w, t, Holder(z));
  }

  // ---------- a node with at most one child ----------

  /** A child of the node takes its place. */
  lemma SpliceOpen(m: Memory, root: RbNode?, z: Path, t: Tree, u: Tree)
    requires Open(m, root, z, t) && t.Bin? && (u == t.l || u == t.r)
    ensures Has(m, Holder(z)) && Has(m, Top(u)) && t.n in m
    ensures Open(ChangeChild(m, Holder(z), t.n, Top(u)), NewRoot(root, Holder(z), Top(u)), z, u)
    ensures t.n !in PathNodes(z) + Nodes(u)
    ensures ChangeChild(m, Holder(z), t.n, Top(u))[t.n] == m[t.n]
  {
    assert t.n !in Nodes(u) && Distinct(u) && Nodes(u) !! PathNodes(z);
    hide Linked, PathLinked, Distinct, PathDistinct, Nodes, PathNodes, Outer;
    LinkedBin(m, t, Holder(z));
    TopIn(m, u, t.n);
    ChangeChildLinks(m, root, z, t.n, Top(u));
    var w := ChangeChild(m, Holder(z), t.n, Top(u));
    SetParentLinks(m, u, t.n, Holder(z));
    SpliceSame(m, w, z, t.n, u);
    LinkedFrame(SetParent(m, Top(u), Holder(z)), w, u, Holder(z));
  }

  lemma SpliceSame(m: Memory, w: Memory, z: Path, x: RbNode, u: Tree)
    requires m.Keys == w.Keys && Has(m, Top(u)) && Nodes(u) <= m.Keys && Nodes(u) !! PathNodes(z)
    requires forall y <- m :: y != Top(u) && y !in PathNodes(z) ==> w[y] == m[y]
    requires Top(u) != null ==> w[Top(u)] == m[Top(u)].(parent := Holder(z))
    ensures Same(SetParent(m, Top(u), Holder(z)), w, Nodes(u))
  {
  }

  // ---------- the successor is the right child ----------

  /** `succ` inherits the place, the colour and the left child of `x`. */
  ghost function Promote(m: Memory, x: RbNode, s: RbNode): (w: Memory)
    requires x in m && s in m && Has(m, m[x].parent) && Has(m, m[x].left)
    ensures w.Keys == m.Keys
  {
    var m1 := Paint(ChangeChild(m, m[x].parent, x, s), s, m[x].color);
    SetParent(m1[s := m1[s].(left := m[x].left)], m[x].left, s)
  }

  /** How the parts of a promotion lie apart. */
  ghost predicate PromoteParts(z: Path, l: Tree, s: RbNode, rr: Tree, x: RbNode) {
    && Distinct(l) && Distinct(rr) && PathDistinct(z) && x != s
    && s !in PathNodes(z) && s !in Nodes(l) && s !in Nodes(rr)
    && x !in PathNodes(z) && x !in Nodes(l) && x !in Nodes(rr)
    && Nodes(l) !! PathNodes(z) && Nodes(rr) !! PathNodes(z) && Nodes(l) !! Nodes(rr)
  }

  lemma PromoteApart(z: Path, t: Tree)
    requires Apart(z, t) && t.Bin? && t.r.Bin? && t.r.l.Nil?
    ensures PromoteParts(z, t.l, t.r.n, t.r.r, t.n) && Apart(z, Bin(t.l, t.r.n, t.c, t.r.r))
  {
    assert t.r.n == Top(t.r) && Distinct(t.r);
  }

  lemma PromoteStep1(m: Memory, root: RbNode?, z: Path, l: Tree, s: RbNode, rr: Tree, x: RbNode)
    requires PromoteParts(z, l, s, rr, x) && x in m && s in m
    requires PathLinked(m, z, x) && root == Outer(z, x) && Linked(m, l, x) && Linked(m, rr, s)
    ensures Has(m, Holder(z)) && Has(m, Top(l))
    ensures var m1 := ChangeChild(m, Holder(z), x, s);
      && PathLinked(m1, z, s) && Linked(m1, l, x) && Linked(m1, rr, s)
      && m1[s] == m[s].(parent := Holder(z)) && m1[x] == m[x]
      && NewRoot(root, Holder(z), s) == Outer(z, s)
  {
    hide Linked, PathLinked, ChangeChild, Distinct, PathDistinct, Nodes, PathNodes, Outer;
    ChangeChildLinks(m, root, z, x, s);
    var m1 := ChangeChild(m, Holder(z), x, s);
    Elsewhere(m, m1, PathNodes(z) + {s}, l, x);
    Elsewhere(m, m1, PathNodes(z) + {s}, rr, s);
  }

  lemma PromoteStep2(m1: Memory, z: Path, l: Tree, s: RbNode, rr: Tree, x: RbNode, f: Fields)
    requires PromoteParts(z, l, s, rr, x) && s in m1
    requires PathLinked(m1, z, s) && Linked(m1, l, x) && Linked(m1, rr, s)
    ensures Has(m1, Top(l))
    ensures var w := SetParent(m1[s := f], Top(l), s);
      PathLinked(w, z, s) && Linked(w, l, s) && Linked(w, rr, s) && w[s] == f
  {
    hide Linked, PathLinked, Distinct, PathDistinct, Nodes, PathNodes, SetParent;
    AdoptOne(m1, s, f, l, x);
    var w := SetParent(m1[s := f], Top(l), s);
    Elsewhere(m1, w, Nodes(l) + {s}, rr, s);
    PathElsewhere(m1, w, Nodes(l) + {s}, z, s);
  }

  lemma PromoteOpen(m: Memory, root: RbNode?, z: Path, t: Tree)
    requires Open(m, root, z, t) && t.Bin? && t.r.Bin? && t.r.l.Nil?
    ensures t.n in m && t.r.n in m && m[t.n] == Fields(Top(t.l), t.r.n, Holder(z), t.c)
    ensures Has(m, Holder(z)) && Has(m, Top(t.l))
    ensures Open(Promote(m, t.n, t.r.n), NewRoot(root, Holder(z), t.r.n), z, Bin(t.l, t.r.n, t.c, t.r.r))
  {
    hide Linked, PathLinked, Apart, Distinct, PathDistinct, Nodes, PathNodes, SetParent, ChangeChild, Outer;
    var x, s, l, rr := t.n, t.r.n, t.l, t.r.r;
    PromoteApart(z, t);
    PromoteDistinct(z, t);
    LinkedBin(m, t, Holder(z));
    LinkedBin(m, t.r, x);
    PromoteStep1(m, root, z, l, s, rr, x);
    var m1 := ChangeChild(m, Holder(z), x, s);
    var f := m1[s].(color := t.c, left := Top(l));
    PromoteStep2(m1, z, l, s, rr, x, f);
    assert Paint(m1, s, t.c)[s := Paint(m1, s, t.c)[s].(left := Top(l))] == m1[s := f];
    var w := SetParent(m1[s := f], Top(l), s);
    assert w == Promote(m, x, s);
    LinkedBin(w, Bin(l, s, t.c, rr), Holder(z));
  }

  lemma PromoteDistinct(z: Path, t: Tree)
    requires Apart(z, t) && t.Bin? && t.r.Bin? && t.r.l.Nil?
    ensures Distinct(t) && Distinct(t.r) && Distinct(Bin(t.l, t.r.n, t.c, t.r.r))
  {
    PromoteApart(z, t);
  }

  // ---------- rb_replace_node ----------

  /** `new` takes over the fields, the children and the place of `old`. */
  ghost function ReplaceNode(m: Memory, x: RbNode, s: RbNode): (w: Memory)
    requires x in m && s in m && Has(m, m[x].parent) && Has(m, m[x].left) && Has(m, m[x].right)
    ensures w.Keys == m.Keys
  {
    var m1 := SetParent(m[s := m[x]], m[x].left, s);
    var m2 := SetParent(m1, m[x].right, s);
    ChangeChild(m2, m[x].parent, x, s)
  }

  lemma ReplaceStep1(m: Memory, z: Path, l: Tree, s: RbNode, r: Tree, x: RbNode)
    requires PromoteParts(z, l, s, r, x) && x in m && s in m
    requires PathLinked(m, z, x) && Linked(m, l, x) && Linked(m, r, x)
    ensures Has(m, Top(l)) && Has(m, Top(r))
    ensures var w := SetParent(SetParent(m[s := m[x]], Top(l), s), Top(r), s);
      PathLinked(w, z, x) && Linked(w, l, s) && Linked(w, r, s) && w[s] == m[x] && w[x] == m[x]
  {
    hide Linked, PathLinked, Distinct, PathDistinct, Nodes, PathNodes, SetParent;
    AdoptOne(m, s, m[x], l, x);
    var m1 := SetParent(m[s := m[x]], Top(l), s);
    Elsewhere(m, m1, Nodes(l) + {s}, r, x);
    PathElsewhere(m, m1, Nodes(l) + {s}, z, x);
    AdoptOne(m1, s, m[x], r, x);
    assert m1[s := m[x]] == m1;
    var w := SetParent(m1, Top(r), s);
    Elsewhere(m1, w, Nodes(r) + {s}, l, s);
    PathElsewhere(m1, w, Nodes(r) + {s}, z, x);
  }

  lemma ReplaceStep2(m: Memory, root: RbNode?, z: Path, l: Tree, s: RbNode, r: Tree, x: RbNode)
    requires PromoteParts(z, l, s, r, x) && x in m && s in m
    requires PathLinked(m, z, x) && root == Outer(z, x) && Linked(m, l, s) && Linked(m, r, s)
    ensures Has(m, Holder(z))
    ensures var w := ChangeChild(m, Holder(z), x, s);
      && PathLinked(w, z, s) && Linked(w, l, s) && Linked(w, r, s)
      && w[s] == m[s].(parent := Holder(z)) && w[x] == m[x]
      && NewRoot(root, Holder(z), s) == Outer(z, s)
  {
    hide Linked, PathLinked, ChangeChild, Distinct, PathDistinct, Nodes, PathNodes, Outer;
    ChangeChildLinks(m, root, z, x, s);
    var w := ChangeChild(m, Holder(z), x, s);
    Elsewhere(m, w, PathNodes(z) + {s}, l, s);
    Elsewhere(m, w, PathNodes(z) + {s}, r, s);
  }

  lemma ReplaceOpen(m: Memory, root: RbNode?, z: Path, t: Tree, s: RbNode)
    requires Open(m, root, z, t) && t.Bin? && s in m && s !in PathNodes(z) && s !in Nodes(t)
    ensures t.n in m && m[t.n] == Fields(Top(t.l), Top(t.r), Holder(z), t.c)
    ensures Has(m, Holder(z)) && Has(m, Top(t.l)) && Has(m, Top(t.r))
    ensures Open(ReplaceNode(m, t.n, s), NewRoot(root, Holder(z), s), z, t.(n := s))
  {
    var x, l, r := t.n, t.l, t.r;
    assert PromoteParts(z, l, s, r, x) && Distinct(t) && Distinct(t.(n := s)) && Apart(z, t.(n := s));
    hide Linked, PathLinked, Apart, Distinct, PathDistinct, Nodes, PathNodes, SetParent, ChangeChild, Outer,
      PromoteParts;
    LinkedBin(m, t, Holder(z));
    ReplaceStep1(m, z, l, s, r, x);
    var m2 := SetParent(SetParent(m[s := m[x]], Top(l), s), Top(r), s);
    ReplaceStep2(m2, root, z, l, s, r, x);
    LinkedBin(ReplaceNode(m, x, s), t.(n := s), Holder(z));
  }

  // ---------- the successor further down ----------

  /** The path `y` continued by `base` at its upper end. */
  ghost function Append(y: Path, base: Path): Path {
    if y.Here? then base else y.(up := Append(y.up, base))
  }

  ghost predicate LeftSpine(y: Path) {
    y.Here? || (y.GoLeft? && LeftSpine(y.up))
  }

  lemma {:induction false} AppendOpen(m: Memory, root: RbNode?, y: Path, base: Path, t: Tree)
    ensures Open(m, root, Append(y, base), t) <==> Open(m, root, base, Plug(y, t))
  {
    hide Open;
    if !y.Here? {
      OpenUp(m, root, Append(y, base), t);
      AppendOpen(m, root, y.up, base, Up(y, t));
    }
  }

  lemma {:induction false} AppendOrder(y: Path, base: Path, t: Tree)
    ensures Order(Append(y, base), t) == Order(base, Plug(y, t))
  {
    hide Order;
    if !y.Here? {
      OrderUp(Append(y, base), t);
      AppendOrder(y.up, base, Up(y, t));
    }
  }

  /** Which node holds a place does not matter for the balance. */
  lemma {:induction false} AppendBalanced(y: Path, base: Path, s: RbNode, h: int)
    requires !base.Here?
    ensures PathBalanced(Append(y, base), h) <==> PathBalanced(Append(y, base.(n := s)), h)
  {
    if !y.Here? {
      AppendBalanced(y.up, base, s, if y.c.Black? then h + 1 else h);
    }
  }

  lemma {:induction false} AppendNodes(y: Path, base: Path, t: Tree)
    ensures PathNodes(Append(y, base)) + Nodes(t) == PathNodes(base) + Nodes(Plug(y, t))
  {
    if !y.Here? {
      AppendNodes(y.up, base, Up(y, t));
    }
  }

  lemma {:induction false} LeftSpineBefore(y: Path)
    requires LeftSpine(y)
    ensures Before(y) == []
  {
    if !y.Here? { LeftSpineBefore(y.up); }
  }

  // ---------- heights ----------

  /** A node without a left child has a red leaf or nothing on its right. */
  lemma NoLeftHeight(t: Tree, h: int)
    requires Balanced(t, h) && t.Bin? && t.l.Nil?
    ensures h == if t.c.Black? then 1 else 0
    ensures t.r.Bin? ==> t.c.Black? && RedTop(t.r) && Balanced(t.r.(c := Black), 1)
    ensures t.r.Nil? ==> Balanced(t.r, 0)
  {
    if t.r.Bin? { BalancedHeight(t.r, 0); }
  }

  lemma NoRightHeight(t: Tree, h: int)
    requires Balanced(t, h) && t.Bin? && t.r.Nil? && t.l.Bin?
    ensures h == 1 && t.c.Black? && RedTop(t.l) && Balanced(t.l.(c := Black), 1)
  {
    BalancedHeight(t.l, 0);
  }

  lemma NoLeftNodes(z: Path, t: Tree)
    requires Apart(z, t) && t.Bin? && t.l.Nil?
    ensures PathNodes(z) + Nodes(t) == PathNodes(z) + Nodes(t.r) + {t.n}
    ensures t.n !in PathNodes(z) + Nodes(t.r)
    ensures t.r.Bin? ==> Nodes(t.r.(c := Black)) == Nodes(t.r) && Top(t.r) != t.n
    ensures !z.Here? && z.GoRight? ==> Top(z.sib) != t.n
  {
    assert t.r.Bin? ==> t.r.n == Top(t.r);
  }

  lemma NoRightNodes(z: Path, t: Tree)
    requires Apart(z, t) && t.Bin? && t.r.Nil? && t.l.Bin?
    ensures PathNodes(z) + Nodes(t) == PathNodes(z) + Nodes(t.l) + {t.n}
    ensures t.n !in PathNodes(z) + Nodes(t.l)
    ensures Nodes(t.l.(c := Black)) == Nodes(t.l)
  {
  }

  lemma RecolorOrder(z: Path, t: Tree)
    requires t.Bin?
    ensures Order(z, t.(c := Black)) == Order(z, t)
  {
    assert InOrder(t.(c := Black)) == InOrder(t);
  }

  /** The right subtree as a place of its own. */
  ghost function RightOf(z: Path, t: Tree): Path
    requires t.Bin?
  {
    GoRight(z, t.n, t.c, t.l)
  }

  /** A successor's only child turns black when it is red. */
  ghost function Fixed(u: Tree): Tree {
    if RedTop(u) then u.(c := Black) else u
  }

  lemma FixedSame(u: Tree)
    ensures InOrder(Fixed(u)) == InOrder(u) && Nodes(Fixed(u)) == Nodes(u) && Top(Fixed(u)) == Top(u)
  {
  }

  lemma RightBalanced(z: Path, t: Tree, h: int) returns (k: int)
    requires PathBalanced(z, h) && Balanced(t, h) && t.Bin? && (RedTop(t) ==> RedAllowed(z))
    ensures PathBalanced(RightOf(z, t), k) && Balanced(t.r, k)
    ensures RedTop(t.r) ==> RedAllowed(RightOf(z, t))
  {
    k := if t.c.Black? then h - 1 else h;
  }

  /** What is left where the successor was, and whether it is short by one. */
  lemma SuccessorHeight(y: Path, u: Tree, k: int)
    requires PathBalanced(y, k) && Balanced(u, k) && u.Bin? && u.l.Nil? && (RedTop(u) ==> RedAllowed(y))
    ensures u.c.Red? ==> Fixed(u.r) == u.r
    ensures u.c.Red? || RedTop(u.r) ==> Balanced(Fixed(u.r), k) && !RedTop(Fixed(u.r))
    ensures u.c.Black? && !RedTop(u.r) ==> k == 1 && Fixed(u.r) == Nil && Balanced(Nil, 0)
  {
    NoLeftHeight(u, k);
  }

  lemma PromoteNodes(z: Path, t: Tree)
    requires Apart(z, t) && t.Bin? && t.r.Bin? && t.r.l.Nil?
    ensures var y, u := GoRight(z, t.r.n, t.c, t.l), Fixed(t.r.r);
      && PathNodes(z) + Nodes(t) == PathNodes(y) + Nodes(u) + {t.n}
      && t.n !in PathNodes(y) + Nodes(u)
    ensures Order(GoRight(z, t.r.n, t.c, t.l), Fixed(t.r.r)) == Gap(z, t)
  {
    hide Order, InOrder, Before, After, Gap, Apart;
    PromoteOrder(z, t);
    FixedSame(t.r.r);
    PromoteApart(z, t);
    assert Nodes(t.r) == {t.r.n} + Nodes(t.r.r);
  }

  lemma PromoteOrder(z: Path, t: Tree)
    requires t.Bin? && t.r.Bin? && t.r.l.Nil?
    ensures Order(GoRight(z, t.r.n, t.c, t.l), Fixed(t.r.r)) == Gap(z, t)
  {
    FixedSame(t.r.r);
    assert InOrder(t.r) == [t.r.n] + InOrder(t.r.r);
  }

  /** The order without the node at the top of `t`. */
  ghost function Gap(z: Path, t: Tree): seq<RbNode>
    requires t.Bin?
  {
    Before(z) + InOrder(t.l) + InOrder(t.r) + After(z)
  }

  lemma ChildReads(m: Memory, root: RbNode?, y: Path, u: Tree)
    requires Open(m, root, y, u) && u.Bin?
    ensures u.r.Bin? ==> u.r.n in m && m[u.r.n].color == u.r.c && u.r.n != u.n && u.r.n != Top(u.l)
  {
    LinkedBin(m, u, Holder(y));
    if u.r.Bin? {
      LinkedBin(m, u.r, u.n);
      assert u.r.n == Top(u.r);
    }
  }

  lemma SpliceKeeps(m: Memory, root: RbNode?, z: Path, t: Tree)
    requires Open(m, root, z, t) && t.Bin? && t.r.Bin?
    ensures t.n in m && t.r.n in m && Has(m, Holder(z)) && t.n != t.r.n
    ensures ChangeChild(m, Holder(z), t.n, t.r.n)[t.n] == m[t.n]
  {
    SpliceOpen(m, root, z, t, t.r);
    assert t.r.n == Top(t.r);
  }

  lemma SamePlace(y: Path, s: RbNode, k: int)
    requires !y.Here?
    ensures PathBalanced(y, k) <==> PathBalanced(y.(n := s), k)
  {
  }

  lemma {:induction false} AppendUnplug(y: Path, base: Path, u: Tree, k0: int) returns (k: int)
    requires PathBalanced(base, k0) && Balanced(Plug(y, u), k0)
    requires RedTop(Plug(y, u)) ==> RedAllowed(base)
    ensures PathBalanced(Append(y, base), k) && Balanced(u, k)
    ensures RedTop(u) ==> RedAllowed(Append(y, base))
  {
    if y.Here? {
      k := k0;
    } else {
      var j := AppendUnplug(y.up, base, Up(y, u), k0);
      k := if y.c.Black? then j - 1 else j;
    }
  }

  lemma FarPlug(y: Path, u: Tree)
    requires Distinct(Plug(y, u)) && u.Bin? && u.l.Nil?
    ensures Nodes(Plug(y, u)) == {u.n} + Nodes(Plug(y, Fixed(u.r)))
    ensures u.n !in Nodes(Plug(y, Fixed(u.r)))
  {
    hide Plug;
    PlugNodes(y, u);
    PlugNodes(y, Fixed(u.r));
    PlugDistinct(y, u);
    FixedSame(u.r);
  }

  /** The successor leaves its place and takes that of the erased node. */
  lemma FarNodes(z: Path, t: Tree, y: Path, u: Tree)
    requires Apart(z, t) && t.Bin? && t.r == Plug(y, u) && u.Bin? && u.l.Nil?
    ensures u.n !in PathNodes(z) && u.n !in Nodes(Bin(t.l, t.n, t.c, Plug(y, Fixed(u.r)))) && u.n != t.n
    ensures var b, s := GoRight(z, u.n, t.c, t.l), Fixed(u.r);
      && PathNodes(z) + Nodes(t) == PathNodes(Append(y, b)) + Nodes(s) + {t.n}
      && t.n !in PathNodes(Append(y, b)) + Nodes(s)
  {
    hide Plug, Append, Fixed;
    FarPlug(y, u);
    AppendNodes(y, GoRight(z, u.n, t.c, t.l), Fixed(u.r));
  }

  lemma NoLeftOrder(u: Tree)
    requires u.Bin? && u.l.Nil?
    ensures InOrder(u) == [u.n] + InOrder(u.r)
  {
  }

  lemma FarRight(y: Path, u: Tree)
    requires u.Bin? && u.l.Nil? && LeftSpine(y)
    ensures InOrder(Plug(y, u)) == [u.n] + InOrder(Plug(y, Fixed(u.r)))
  {
    hide Plug, InOrder, After, Before, Fixed, LeftSpine;
    FixedSame(u.r);
    PlugInOrder(y, u);
    PlugInOrder(y, Fixed(u.r));
    LeftSpineBefore(y);
    NoLeftOrder(u);
  }

  lemma FarOrder(z: Path, t: Tree, y: Path, u: Tree)
    requires t.Bin? && t.r == Plug(y, u) && u.Bin? && u.l.Nil? && LeftSpine(y)
    ensures Order(Append(y, GoRight(z, u.n, t.c, t.l)), Fixed(u.r)) == Gap(z, t)
  {
    hide Plug, Append, Fixed, LeftSpine, InOrder;
    AppendOrder(y, GoRight(z, u.n, t.c, t.l), Fixed(u.r));
    FarRight(y, u);
  }

  lemma ReplaceReads(m: Memory, root: RbNode?, z: Path, t: Tree)
    requires Open(m, root, z, t) && t.Bin?
    ensures t.n in m && m[t.n].left != t.n && m[t.n].right != t.n
  {
    LinkedBin(m, t, Holder(z));
  }

  lemma GapEnds(z: Path, t: Tree)
    requires t.Bin?
    ensures t.l.Nil? ==> Gap(z, t) == Order(z, t.r)
    ensures t.r.Nil? ==> Gap(z, t) == Order(z, t.l)
  {
  }

  lemma OrderTop(z: Path, t: Tree)
    requires t.Bin?
    ensures Order(z, t) == (Before(z) + InOrder(t.l)) + [t.n] + (InOrder(t.r) + After(z))
  {
    hide Before, After;
    OrderSplit(Before(z), InOrder(t.l), [t.n], InOrder(t.r), After(z));
  }

  lemma OrderSplit(a: seq<RbNode>, b: seq<RbNode>, c: seq<RbNode>, d: seq<RbNode>, e: seq<RbNode>)
    ensures a + (b + c + d) + e == (a + b) + c + (d + e)
    ensures a + b + d + e == (a + b) + (d + e)
  {
  }

  lemma CutOut(a: seq<RbNode>, x: RbNode, b: seq<RbNode>)
    ensures var o := a + [x] + b; o[|a|] == x && o[..|a|] == a && o[|a| + 1..] == b
  {
  }

  lemma GapAt(z: Path, t: Tree) returns (i: nat)
    requires t.Bin?
    ensures var o := Order(z, t);
      i < |o| && o[i] == t.n && Gap(z, t) == o[..i] + o[i + 1..]
  {
    hide Order, InOrder, Before, After;
    var a, b := Before(z) + InOrder(t.l), InOrder(t.r) + After(z);
    i := |a|;
    OrderTop(z, t);
    CutOut(a, t.n, b);
    OrderSplit(Before(z), InOrder(t.l), [t.n], InOrder(t.r), After(z));
  }

  lemma PlugHere(t: Tree)
    ensures Plug(Here, t) == t
  {
  }

  /** Coming up from the right, nothing new follows; coming up from the left, the holder follows. */
  lemma NextClimb(m: Memory, root: RbNode?, y: Path, s: Tree)
    requires Open(m, root, y, s) && s.Bin? && !y.Here?
    ensures y.n in m && (y.GoRight? <==> m[y.n].right == s.n)
    ensures y.GoRight? ==> After(y) == After(y.up)
    ensures y.GoLeft? ==> After(y) != [] && After(y)[0] == y.n
    ensures Length(y.up) < Length(y)
  {
    OpenHas(m, root, y, s);
  }

  lemma PrevClimb(m: Memory, root: RbNode?, y: Path, s: Tree)
    requires Open(m, root, y, s) && s.Bin? && !y.Here?
    ensures y.n in m && (y.GoLeft? <==> m[y.n].left == s.n)
    ensures y.GoLeft? ==> Before(y) == Before(y.up)
    ensures y.GoRight? ==> Before(y) != [] && Before(y)[|Before(y)| - 1] == y.n
    ensures Length(y.up) < Length(y)
  {
    OpenHas(m, root, y, s);
  }

  /** The left subtree as a place of its own. */
  ghost function LeftOf(z: Path, t: Tree): Path
    requires t.Bin?
  {
    GoLeft(z, t.n, t.c, t.r)
  }

  lemma ReplacedAt(z: Path, t: Tree, s: RbNode) returns (i: nat)
    requires t.Bin?
    ensures i < |Order(z, t)| && Order(z, t)[i] == t.n && Order(z, t.(n := s)) == Order(z, t)[i := s]
  {
    var a, b := Before(z) + InOrder(t.l), InOrder(t.r) + After(z);
    i := |a|;
    assert Order(z, t) == a + [t.n] + b;
    assert Order(z, t.(n := s)) == a + [s] + b;
  }

  /** The same shape and colours with node `x` exchanged for `s`. */
  ghost function Renamed(t: Tree, x: RbNode, s: RbNode): Tree {
    match t
    case Nil => Nil
    case Bin(l, n, c, r) => Bin(Renamed(l, x, s), if n == x then s else n, c, Renamed(r, x, s))
  }

  lemma {:induction false} RenamedAbsent(t: Tree, x: RbNode, s: RbNode)
    requires x !in Nodes(t)
    ensures Renamed(t, x, s) == t
  {
    if t.Bin? {
      RenamedAbsent(t.l, x, s);
      RenamedAbsent(t.r, x, s);
    }
  }

  lemma {:induction false} RenamedPlug(z: Path, t: Tree, x: RbNode, s: RbNode)
    requires x !in PathNodes(z)
    ensures Renamed(Plug(z, t), x, s) == Plug(z, Renamed(t, x, s))
  {
    if !z.Here? {
      RenamedAbsent(z.sib, x, s);
      RenamedPlug(z.up, Up(z, t), x, s);
    }
  }

  lemma RenamedAt(z: Path, t: Tree, s: RbNode)
    requires t.Bin? && Apart(z, t)
    ensures Renamed(Plug(z, t), t.n, s) == Plug(z, t.(n := s))
  {
    hide Plug;
    RenamedAbsent(t.l, t.n, s);
    RenamedAbsent(t.r, t.n, s);
    RenamedPlug(z, t, t.n, s);
  }

  lemma ReplacedNodes(z: Path, t: Tree, s: RbNode, h: int)
    requires t.Bin? && Apart(z, t) && s !in PathNodes(z) + Nodes(t)
    ensures t.n !in PathNodes(z) + Nodes(t.(n := s))
    ensures PathNodes(z) + Nodes(t) + {s} == PathNodes(z) + Nodes(t.(n := s)) + {t.n}
    ensures Balanced(t, h) ==> Balanced(t.(n := s), h)
  {
  }
}
