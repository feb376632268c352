/** The shapes that `__rb_insert_color` produces. */
module RbInsert {
  import opened RbShape
  import opened RbMoves

  /** The double-red state: `t` is red and everything else is in order. */
  ghost predicate Reddening(m: Memory, root: RbNode?, z: Path, t: Tree, h: int) {
    && Open(m, root, z, t)
    && m.Keys == PathNodes(z) + Nodes(t)
    && RedTop(t)
    && PathBalanced(z, h) && Balanced(t, h)
  }

  /** The subtrees around a red node with a red parent are balanced and not red. */
  lemma AroundDoubleRed(z: Path, t: Tree, h: int)
    requires PathBalanced(z, h) && Balanced(t, h) && RedTop(t) && !z.Here? && z.c.Red?
    ensures !z.up.Here? && z.up.c.Black?
    ensures Balanced(t.l, h) && Balanced(t.r, h) && !RedTop(t.l) && !RedTop(t.r)
    ensures Balanced(z.sib, h) && !RedTop(z.sib) && Balanced(z.up.sib, h)
    ensures PathBalanced(z.up.up, h + 1)
  {
  }

  lemma RedNode(l: Tree, n: RbNode, r: Tree, h: int)
    requires Balanced(l, h) && Balanced(r, h) && !RedTop(l) && !RedTop(r)
    ensures Balanced(Bin(l, n, Red, r), h)
  {
  }

  lemma BlackNode(l: Tree, n: RbNode, r: Tree, h: int)
    requires Balanced(l, h) && Balanced(r, h)
    ensures Balanced(Bin(l, n, Black, r), h + 1)
  {
  }

  /** What a round of the fix-up reads before it decides on its case. */
  lemma DoubleRedReads(m: Memory, root: RbNode?, z: Path, t: Tree, h: int)
    requires Reddening(m, root, z, t, h) && !z.Here? && z.c.Red?
    ensures !z.up.Here?
    ensures z.n in m && m[z.n].parent == z.up.n && m[z.n].color == Red
    ensures z.up.n in m
    ensures z.up.GoLeft? <==> m[z.up.n].left == z.n
    ensures z.up.GoLeft? ==> m[z.up.n].right == Top(z.up.sib)
    ensures z.up.GoRight? ==> m[z.up.n].left == Top(z.up.sib)
    ensures z.up.sib.Bin? ==> z.up.sib.n in m && m[z.up.sib.n].color == z.up.sib.c
  {
    AroundDoubleRed(z, t, h);
    assert PathDistinct(z.up);
    assert z.n !in PathNodes(z.up) && Distinct(z.up.sib);
    hide Linked, PathLinked, Apart, PathBalanced, Balanced, Distinct, PathDistinct;
    TwoUp(m, root, z, t);
    if z.up.sib.Bin? { LinkedBin(m, z.up.sib, z.up.n); }
  }

  /** What `__rb_insert_color` reads to see whether it is done. */
  lemma ReddeningReads(m: Memory, root: RbNode?, z: Path, t: Tree, h: int)
    requires Reddening(m, root, z, t, h)
    ensures t.Bin? && t.n in m && m[t.n].parent == Holder(z) && m.Keys == PathNodes(z) + Nodes(t)
    ensures !z.Here? ==> z.n in m && m[z.n].color == z.c
    ensures !z.Here? && z.c.Red? ==> !z.up.Here?
  {
    OpenHas(m, root, z, t);
  }

  lemma {:induction false} Order1A(z: Path, t: Tree, x: Color, y: Color)
    requires z.GoLeft? && z.up.GoLeft?
    ensures Order(z.up.up, Bin(t, z.n, x, Bin(z.sib, z.up.n, y, z.up.sib))) == Order(z, t)
  {
    OrderUp(z, t);
    OrderUp(z.up, Up(z, t));
    RotateOrder(t, z.n, z.sib, z.up.n, z.up.sib, z.c, z.up.c, x, y);
  }

  /** Case-1-A may rotate, and its shape is balanced and keeps the order. */
  lemma Insert1A(m: Memory, root: RbNode?, z: Path, t: Tree, h: int) returns (s: Tree)
    requires Reddening(m, root, z, t, h) && z.GoLeft? && z.c.Red? && z.up.GoLeft?
    ensures s == Bin(t, z.n, Red, Bin(z.sib, z.up.n, Black, z.up.sib))
    ensures Rotatable(m, root, z.up.up, z.up.n, s, t.n, t.n, z.n, z.up.n)
  {
    s := Bin(t, z.n, Red, Bin(z.sib, z.up.n, Black, z.up.sib));
    TwoUp(m, root, z, t);
    Order1A(z, t, Red, Black);
    ReshapeOpen(m, root, z, t, z.up.up, s);
  }

  lemma {:induction false} Order1B(z: Path, t: Tree, x: Color, y: Color, v: Color)
    requires z.GoRight? && z.up.GoLeft? && t.Bin?
    ensures Order(z.up.up, Bin(Bin(z.sib, z.n, x, t.l), t.n, y, Bin(t.r, z.up.n, v, z.up.sib))) == Order(z, t)
  {
    OrderUp(z, t);
    OrderUp(z.up, Up(z, t));
    DoubleOrder(z.sib, z.n, t, z.up.n, z.up.sib, z.c, z.up.c, x, y, v);
  }

  /** Case-1-B may rotate. */
  lemma Insert1B(m: Memory, root: RbNode?, z: Path, t: Tree, h: int) returns (s: Tree)
    requires Reddening(m, root, z, t, h) && z.GoRight? && z.c.Red? && z.up.GoLeft?
    ensures s == Bin(Bin(z.sib, z.n, Red, t.l), t.n, Red, Bin(t.r, z.up.n, Black, z.up.sib))
    ensures Rotatable(m, root, z.up.up, z.up.n, s, z.n, t.n, t.n, z.up.n)
  {
    s := Bin(Bin(z.sib, z.n, Red, t.l), t.n, Red, Bin(t.r, z.up.n, Black, z.up.sib));
    TwoUp(m, root, z, t);
    Order1B(z, t, Red, Red, Black);
    ReshapeOpen(m, root, z, t, z.up.up, s);
  }

  lemma {:induction false} Order1AMirror(z: Path, t: Tree, x: Color, y: Color)
    requires z.GoRight? && z.up.GoRight?
    ensures Order(z.up.up, Bin(Bin(z.up.sib, z.up.n, x, z.sib), z.n, y, t)) == Order(z, t)
  {
    OrderUp(z, t);
    OrderUp(z.up, Up(z, t));
    RotateOrder(z.up.sib, z.up.n, z.sib, z.n, t, x, y, z.up.c, z.c);
  }

  lemma Insert1AMirror(m: Memory, root: RbNode?, z: Path, t: Tree, h: int) returns (s: Tree)
    requires Reddening(m, root, z, t, h) && z.GoRight? && z.c.Red? && z.up.GoRight?
    ensures s == Bin(Bin(z.up.sib, z.up.n, Black, z.sib), z.n, Red, t)
    ensures Rotatable(m, root, z.up.up, z.up.n, s, z.up.n, z.n, t.n, t.n)
  {
    s := Bin(Bin(z.up.sib, z.up.n, Black, z.sib), z.n, Red, t);
    TwoUp(m, root, z, t);
    Order1AMirror(z, t, Black, Red);
    ReshapeOpen(m, root, z, t, z.up.up, s);
  }

  lemma {:induction false} Order1BMirror(z: Path, t: Tree, x: Color, y: Color, v: Color)
    requires z.GoLeft? && z.up.GoRight? && t.Bin?
    ensures Order(z.up.up, Bin(Bin(z.up.sib, z.up.n, x, t.l), t.n, y, Bin(t.r, z.n, v, z.sib))) == Order(z, t)
  {
    OrderUp(z, t);
    OrderUp(z.up, Up(z, t));
    DoubleOrderMirror(z.up.sib, z.up.n, t, z.n, z.sib, z.c, z.up.c, x, y, v);
  }

  lemma Insert1BMirror(m: Memory, root: RbNode?, z: Path, t: Tree, h: int) returns (s: Tree)
    requires Reddening(m, root, z, t, h) && z.GoLeft? && z.c.Red? && z.up.GoRight?
    ensures s == Bin(Bin(z.up.sib, z.up.n, Black, t.l), t.n, Red, Bin(t.r, z.n, Red, z.sib))
    ensures Rotatable(m, root, z.up.up, z.up.n, s, z.up.n, t.n, t.n, z.n)
  {
    s := Bin(Bin(z.up.sib, z.up.n, Black, t.l), t.n, Red, Bin(t.r, z.n, Red, z.sib));
    TwoUp(m, root, z, t);
    Order1BMirror(z, t, Black, Red, Red);
    ReshapeOpen(m, root, z, t, z.up.up, s);
  }

  /** Case-2 opens the grandparent's subtree, to change only colours in it. */
  lemma Insert2(m: Memory, root: RbNode?, z: Path, t: Tree, h: int) returns (s: Tree)
    requires Reddening(m, root, z, t, h) && !z.Here? && !z.up.Here?
    ensures s == Up(z.up, Up(z, t))
    ensures Open(m, root, z.up.up, s)
    ensures m.Keys == PathNodes(z.up.up) + Nodes(s)
  {
    s := Up(z.up, Up(z, t));
    assert m.Keys == PathNodes(z.up.up) + Nodes(s) by {
      assert PathNodes(z) + Nodes(t) == PathNodes(z.up) + Nodes(Up(z, t));
    }
    hide Linked, PathLinked, Apart, Nodes, PathNodes;
    OpenUp(m, root, z, t);
    OpenUp(m, root, z.up, Up(z, t));
  }

  /** What Case-2 leaves: a red grandparent with two black children. */
  ghost function Insert2Shape(z: Path, t: Tree): Tree
    requires !z.Here? && !z.up.Here? && z.up.sib.Bin?
  {
    var p, u := Repaint(Up(z, t), z.n, Black), z.up.sib.(c := Black);
    if z.up.GoLeft? then Bin(p, z.up.n, Red, u) else Bin(u, z.up.n, Red, p)
  }

  lemma Insert2Paint(z: Path, t: Tree)
    requires !z.Here? && !z.up.Here? && z.up.sib.Bin? && Apart(z, t)
    ensures var s := Up(z.up, Up(z, t));
      Repaint(Repaint(Repaint(s, z.up.n, Red), z.n, Black), z.up.sib.n, Black) == Insert2Shape(z, t)
  {
    assert Top(Up(z, t)) == z.n;
    assert PathDistinct(z.up);
    assert z.n !in PathNodes(z.up) && z.up.n !in Nodes(z.up.sib);
    assert z.up.sib.n == Top(z.up.sib);
  }

  lemma Insert2Balanced(z: Path, t: Tree, h: int)
    requires PathBalanced(z, h) && Balanced(t, h) && RedTop(t) && !z.Here? && z.c.Red?
    requires !z.up.Here? && RedTop(z.up.sib)
    ensures Balanced(Insert2Shape(z, t), h + 1) && RedTop(Insert2Shape(z, t))
    ensures PathBalanced(z.up.up, h + 1)
  {
    AroundDoubleRed(z, t, h);
    assert Balanced(Repaint(Up(z, t), z.n, Black), h + 1);
    assert Balanced(z.up.sib.(c := Black), h + 1);
  }

  lemma Insert2Order(z: Path, t: Tree)
    requires !z.Here? && !z.up.Here? && z.up.sib.Bin?
    ensures Order(z.up.up, Insert2Shape(z, t)) == Order(z, t)
    ensures Nodes(Insert2Shape(z, t)) == Nodes(Up(z.up, Up(z, t)))
  {
    OrderUp(z, t);
    OrderUp(z.up, Up(z, t));
    assert InOrder(Insert2Shape(z, t)) == InOrder(Up(z.up, Up(z, t)));
  }

  /** Linking a red leaf into an empty place starts the fix-up. */
  lemma LinkNodeReddening(m: Memory, root: RbNode?, z: Path, x: RbNode, h: int)
    requires Open(m, root, z, Nil) && x !in PathNodes(z) && m.Keys == PathNodes(z)
    requires PathBalanced(z, h) && Balanced(Nil, h)
    ensures Has(m, Holder(z))
    ensures Reddening(LinkNode(m, x, Holder(z), z.GoLeft?), NewRoot(root, Holder(z), x), z, Leaf(x), h)
    ensures !z.Here? || LinkNode(m, x, null, false) == LinkNode(m, x, null, true)
  {
    LinkNodeOpen(m, root, z, x);
  }

  /** Which child of its parent the red node is. */
  lemma BesideParent(m: Memory, root: RbNode?, z: Path, t: Tree)
    requires Open(m, root, z, t) && t.Bin? && !z.Here?
    ensures z.n in m
    ensures z.GoLeft? <==> m[z.n].left == t.n
    ensures z.GoRight? <==> m[z.n].right == t.n
  {
    OpenHas(m, root, z, t);
  }

  lemma NilNodes()
    ensures Nodes(Nil) == {}
  {
  }
}
