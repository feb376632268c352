/** `kernel/lib/rbtree.c`: the red-black tree over heap nodes. */
module RbTree {
  import opened RbShape
  import opened RbMoves
  import opened RbInsert
  import opened RbOrder
  import opened RbErase
  import opened RbUnlink

  /** The current fields of the nodes in `S`. */
  ghost function Snap(S: set<RbNode>): (m: Memory)
    reads S
    ensures m.Keys == S
  {
    map x | x in S :: Fields(x.left, x.right, x.parent, x.color)
  }

  lemma SnapAt(S: set<RbNode>, x: RbNode)
    requires x in S
    ensures Snap(S)[x] == Fields(x.left, x.right, x.parent, x.color)
  {
  }

  ghost function Opt(n: RbNode?): set<RbNode> {
    if n == null then {} else {n}
  }

  method SetLeft(n: RbNode, v: RbNode?, ghost S: set<RbNode>)
    requires n in S
    modifies n`left
    ensures var m := old(Snap(S)); Snap(S) == m[n := m[n].(left := v)]
  {
    n.left := v;
  }

  method SetRight(n: RbNode, v: RbNode?, ghost S: set<RbNode>)
    requires n in S
    modifies n`right
    ensures var m := old(Snap(S)); Snap(S) == m[n := m[n].(right := v)]
  {
    n.right := v;
  }

  method SetColor(n: RbNode, c: Color, ghost S: set<RbNode>)
    requires n in S
    modifies n`color
    ensures Snap(S) == Paint(old(Snap(S)), n, c)
  {
    n.color := c;
  }

  /** `if (t) rb_set_parent(t, p)` */
  method SetParentOf(t: RbNode?, p: RbNode?, ghost S: set<RbNode>)
    requires t != null ==> t in S
    modifies Opt(t)`parent
    ensures Snap(S) == SetParent(old(Snap(S)), t, p)
  {
    if t != null {
      t.parent := p;
    }
  }

  /** The part of `__connect34` that hangs two subtrees under one node. */
  method AdoptTwo(n: RbNode, t1: RbNode?, t2: RbNode?, ghost S: set<RbNode>)
    requires n in S && (t1 != null ==> t1 in S) && (t2 != null ==> t2 in S)
    modifies n`left, n`right, Opt(t1)`parent, Opt(t2)`parent
    ensures Snap(S) == Adopt(old(Snap(S)), n, t1, t2)
  {
    SetLeft(n, t1, S);
    SetParentOf(t1, n, S);
    SetRight(n, t2, S);
    SetParentOf(t2, n, S);
  }

  /** The part of `__connect34` that puts `b` above `a` and `c`. */
  method CrownThree(a: RbNode, b: RbNode, c: RbNode, ghost S: set<RbNode>)
    requires a in S && b in S && c in S
    modifies b`left, b`right, a`parent, c`parent
    ensures Snap(S) == Crown(old(Snap(S)), a, b, c)
  {
    ghost var m := Snap(S);
    SetLeft(b, a, S);
    SetRight(b, c, S);
    assert Snap(S) == m[b := m[b].(left := a, right := c)];
    SetParentOf(a, b, S);
    SetParentOf(c, b, S);
  }

  method ConnectThree(a: RbNode, b: RbNode, c: RbNode,
                      t1: RbNode?, t2: RbNode?, t3: RbNode?, t4: RbNode?, ghost S: set<RbNode>)
    requires a in S && b in S && c in S
    requires (t1 != null ==> t1 in S) && (t2 != null ==> t2 in S)
    requires (t3 != null ==> t3 in S) && (t4 != null ==> t4 in S)
    modifies a, b, c, Opt(t1)`parent, Opt(t2)`parent, Opt(t3)`parent, Opt(t4)`parent
    ensures Snap(S) == Connect34(old(Snap(S)), a, b, c, t1, t2, t3, t4)
  {
    AdoptTwo(a, t1, t2, S);
    AdoptTwo(c, t3, t4, S);
    CrownThree(a, b, c, S);
  }

  class RbRoot {
    var root: RbNode?
    ghost var tree: Tree

    ghost predicate Valid()
      reads this, Nodes(tree)
    {
      && root == Top(tree)
      && Linked(Snap(Nodes(tree)), tree, null)
      && Distinct(tree)
      && RedBlack(tree)
    }

    /** `init_rb_root` */
    constructor ()
      ensures Valid() && tree == Nil
    {
      root := null;
      tree := Nil;
      new;
      assert Balanced(tree, 0);
    }

    method ReplaceChild(parent: RbNode?, old_: RbNode, new_: RbNode?, ghost S: set<RbNode>)
      requires Opt(parent) + Opt(new_) <= S
      modifies this`root, Opt(parent)`left, Opt(parent)`right, Opt(new_)`parent
      ensures Snap(S) == ChangeChild(old(Snap(S)), parent, old_, new_)
      ensures root == NewRoot(old(root), parent, new_)
    {
      if parent != null {
        if parent.left == old_ {
          SetLeft(parent, new_, S);
        } else {
          SetRight(parent, new_, S);
        }
      } else {
        root := new_;
      }
      SetParentOf(new_, parent, S);
    }

    /** A fix-up ends: the subtree goes back into its surroundings. */
    ghost method Close(S: set<RbNode>, z: Path, t: Tree, h: int)
      requires Open(Snap(S), root, z, t)
      requires S == PathNodes(z) + Nodes(t)
      requires PathBalanced(z, h) && Balanced(t, h)
      requires RedTop(t) ==> RedAllowed(z)
      modifies this`tree
      ensures tree == Plug(z, t) && Nodes(tree) == S
      ensures Valid()
      ensures InOrder(tree) == Order(z, t)
    {
      hide Plug, Nodes, PathNodes, InOrder, Linked, PathLinked, Distinct, PathDistinct, Balanced, PathBalanced;
      tree := Plug(z, t);
      PlugTop(z, t);
      PlugLinked(Snap(S), z, t);
      PlugDistinct(z, t);
      PlugNodes(z, t);
      PlugBalanced(z, t, h);
      PlugInOrder(z, t);
    }

    /** A fix-up starts at some subtree of the tree. */
    ghost method Unclose(z: Path, t: Tree) returns (h: int)
      requires Valid() && tree == Plug(z, t)
      ensures Open(Snap(Nodes(tree)), root, z, t)
      ensures Nodes(tree) == PathNodes(z) + Nodes(t)
      ensures PathBalanced(z, h) && Balanced(t, h)
      ensures RedTop(t) ==> RedAllowed(z)
      ensures InOrder(tree) == Order(z, t)
    {
      PlugTop(z, t);
      PlugDistinct(z, t);
      PlugLinked(Snap(Nodes(tree)), z, t);
      PlugNodes(z, t);
      PlugInOrder(z, t);
      h := UnplugBalanced(z, t);
    }

    /** `__rb_change_child` then `__connect34`, the common part of all rotations. */
    method RotateRaw(top: RbNode, a: RbNode, b: RbNode, c: RbNode,
                  t1: RbNode?, t2: RbNode?, t3: RbNode?, t4: RbNode?,
                  ghost S: set<RbNode>, ghost s: Tree)
      requires s.Bin? && s.l.Bin? && s.r.Bin? && top in S
      requires a == s.l.n && b == s.n && c == s.r.n && a in S && b in S && c in S
      requires t1 == Top(s.l.l) && t2 == Top(s.l.r) && t3 == Top(s.r.l) && t4 == Top(s.r.r)
      requires Has(Snap(S), t1) && Has(Snap(S), t2) && Has(Snap(S), t3) && Has(Snap(S), t4)
      requires Has(Snap(S), top.parent)
      modifies this`root, S
      ensures Snap(S) == Hoist(old(Snap(S)), old(top.parent), top, s)
      ensures root == NewRoot(old(root), old(top.parent), b)
    {
      hide Snap, ChangeChild, Connect34;
      SnapAt(S, top);
      ReplaceChild(top.parent, top, b, S);
      ConnectThree(a, b, c, t1, t2, t3, t4, S);
    }

    method Rotate(top: RbNode, a: RbNode, b: RbNode, c: RbNode,
                  t1: RbNode?, t2: RbNode?, t3: RbNode?, t4: RbNode?,
                  ghost S: set<RbNode>, ghost z: Path, ghost s: Tree,
                  ghost q1: RbNode?, ghost q2: RbNode?, ghost q3: RbNode?, ghost q4: RbNode?)
      requires Rotatable(Snap(S), root, z, top, s, q1, q2, q3, q4)
      requires a == s.l.n && b == s.n && c == s.r.n
      requires t1 == Top(s.l.l) && t2 == Top(s.l.r) && t3 == Top(s.r.l) && t4 == Top(s.r.r)
      modifies this`root, S
      ensures Open(Snap(S), root, z, s)
    {
      HoistOpen(Snap(S), root, z, top, s, q1, q2, q3, q4);
      assert top.parent == Snap(S)[top].parent;
      RotateRaw(top, a, b, c, t1, t2, t3, t4, S, s);
    }

    /** `rb_set_color` during a fix-up. */
    method PaintNode(n: RbNode, c: Color, ghost S: set<RbNode>, ghost z: Path, ghost s: Tree)
      requires Open(Snap(S), root, z, s) && s.Bin? && n in S
      requires n == s.n || n == Top(s.l) || n == Top(s.r)
      modifies n`color
      ensures Open(Snap(S), root, z, Repaint(s, n, c))
    {
      OpenPaint(Snap(S), root, z, s, n, c);
      SetColor(n, c, S);
    }

    /** `if (!rb_parent(b)) root->root_node = b` */
    method RefreshRoot(b: RbNode, ghost S: set<RbNode>, ghost z: Path, ghost s: Tree)
      requires Open(Snap(S), root, z, s) && s.Bin? && b == s.n
      modifies this`root
      ensures Open(Snap(S), root, z, s)
    {
      OpenHas(Snap(S), root, z, s);
      assert b.parent == Snap(S)[b].parent;
      if b.parent == null {
        root := b;
      }
    }

    /** Case-1-A: `parent` moves up between `node` and `gparent`. */
    method InsertCase1A(node: RbNode, parent: RbNode, gparent: RbNode, uncle: RbNode?,
                  ghost S: set<RbNode>, ghost z: Path, ghost t: Tree, ghost h: int)
      returns (ghost s: Tree)
      requires Reddening(Snap(S), root, z, t, h) && z.GoLeft? && z.up.GoLeft? && z.c.Red?
      requires node == t.n && parent == z.n && gparent == z.up.n && uncle == Top(z.up.sib)
      modifies this`root, S
      ensures s == Bin(t, z.n, Black, Bin(z.sib, z.up.n, Red, z.up.sib))
      ensures Open(Snap(S), root, z.up.up, s)
    {
      TwoUp(Snap(S), root, z, t);
      s := Insert1A(Snap(S), root, z, t, h);
      Rotate(gparent, node, parent, gparent, node.left, node.right, parent.right, uncle,
             S, z.up.up, s, t.n, t.n, z.n, z.up.n);
      PaintNode(parent, Black, S, z.up.up, s);
      s := Repaint(s, parent, Black);
      PaintNode(gparent, Red, S, z.up.up, s);
      s := Repaint(s, gparent, Red);
      RefreshRoot(parent, S, z.up.up, s);
    }

    /** Case-1-B: `node` moves up between `parent` and `gparent`. */
    method InsertCase1B(node: RbNode, parent: RbNode, gparent: RbNode, uncle: RbNode?,
                  ghost S: set<RbNode>, ghost z: Path, ghost t: Tree, ghost h: int)
      returns (ghost s: Tree)
      requires Reddening(Snap(S), root, z, t, h) && z.GoRight? && z.up.GoLeft? && z.c.Red?
      requires node == t.n && parent == z.n && gparent == z.up.n && uncle == Top(z.up.sib)
      modifies this`root, S
      ensures s == Bin(Bin(z.sib, z.n, Red, t.l), t.n, Black, Bin(t.r, z.up.n, Red, z.up.sib))
      ensures Open(Snap(S), root, z.up.up, s)
    {
      TwoUp(Snap(S), root, z, t);
      s := Insert1B(Snap(S), root, z, t, h);
      Rotate(gparent, parent, node, gparent, parent.left, node.left, node.right, uncle,
             S, z.up.up, s, z.n, t.n, t.n, z.up.n);
      PaintNode(node, Black, S, z.up.up, s);
      s := Repaint(s, node, Black);
      PaintNode(gparent, Red, S, z.up.up, s);
      s := Repaint(s, gparent, Red);
      RefreshRoot(node, S, z.up.up, s);
    }

    /** The mirror of Case-1-A. */
    method InsertCase1AMirror(node: RbNode, parent: RbNode, gparent: RbNode, uncle: RbNode?,
                  ghost S: set<RbNode>, ghost z: Path, ghost t: Tree, ghost h: int)
      returns (ghost s: Tree)
      requires Reddening(Snap(S), root, z, t, h) && z.GoRight? && z.up.GoRight? && z.c.Red?
      requires node == t.n && parent == z.n && gparent == z.up.n && uncle == Top(z.up.sib)
      modifies this`root, S
      ensures s == Bin(Bin(z.up.sib, z.up.n, Red, z.sib), z.n, Black, t)
      ensures Open(Snap(S), root, z.up.up, s)
    {
      TwoUp(Snap(S), root, z, t);
      s := Insert1AMirror(Snap(S), root, z, t, h);
      Rotate(gparent, gparent, parent, node, uncle, parent.left, node.left, node.right,
             S, z.up.up, s, z.up.n, z.n, t.n, t.n);
      PaintNode(parent, Black, S, z.up.up, s);
      s := Repaint(s, parent, Black);
      PaintNode(gparent, Red, S, z.up.up, s);
      s := Repaint(s, gparent, Red);
      RefreshRoot(parent, S, z.up.up, s);
    }

    /** The mirror of Case-1-B. */
    method InsertCase1BMirror(node: RbNode, parent: RbNode, gparent: RbNode, uncle: RbNode?,
                  ghost S: set<RbNode>, ghost z: Path, ghost t: Tree, ghost h: int)
      returns (ghost s: Tree)
      requires Reddening(Snap(S), root, z, t, h) && z.GoLeft? && z.up.GoRight? && z.c.Red?
      requires node == t.n && parent == z.n && gparent == z.up.n && uncle == Top(z.up.sib)
      modifies this`root, S
      ensures s == Bin(Bin(z.up.sib, z.up.n, Red, t.l), t.n, Black, Bin(t.r, z.n, Red, z.sib))
      ensures Open(Snap(S), root, z.up.up, s)
    {
      TwoUp(Snap(S), root, z, t);
      s := Insert1BMirror(Snap(S), root, z, t, h);
      Rotate(gparent, gparent, node, parent, uncle, node.left, node.right, parent.right,
             S, z.up.up, s, z.up.n, t.n, t.n, z.n);
      PaintNode(node, Black, S, z.up.up, s);
      s := Repaint(s, node, Black);
      PaintNode(gparent, Red, S, z.up.up, s);
      s := Repaint(s, gparent, Red);
      RefreshRoot(node, S, z.up.up, s);
    }

    /** Case-1: the uncle is black and one rotation ends the fix-up. */
    method InsertBlackUncleLeft(node: RbNode, parent: RbNode, gparent: RbNode, uncle: RbNode?,
                                ghost S: set<RbNode>, ghost z: Path, ghost t: Tree, ghost h: int)
      requires Reddening(Snap(S), root, z, t, h) && !z.Here? && z.c.Red? && z.up.GoLeft?
      requires node == t.n && parent == z.n && gparent == z.up.n && uncle == Top(z.up.sib)
      requires !RedTop(z.up.sib)
      modifies this, S
      ensures Valid() && Nodes(tree) == S && InOrder(tree) == Order(z, t)
    {
      hide Open, Nodes, PathNodes, Snap, Order, InOrder, Valid, Distinct, Balanced, PathBalanced, Apart;
      AroundDoubleRed(z, t, h);
      TwoUp(Snap(S), root, z, t);
      BesideParent(Snap(S), root, z, t);
      SnapAt(S, parent);
      ghost var s;
      if node == parent.left {
        s := InsertCase1A(node, parent, gparent, uncle, S, z, t, h);
        RedNode(z.sib, z.up.n, z.up.sib, h);
        BlackNode(s.l, s.n, s.r, h);
        Order1A(z, t, Black, Red);
      } else {
        s := InsertCase1B(node, parent, gparent, uncle, S, z, t, h);
        RedNode(z.sib, z.n, t.l, h);
        RedNode(t.r, z.up.n, z.up.sib, h);
        BlackNode(s.l, s.n, s.r, h);
        Order1B(z, t, Red, Black, Red);
      }
      Reshape(z, t, z.up.up, s);
      Close(S, z.up.up, s, h + 1);
    }

    /** The mirror of Case-1: the uncle is black and one rotation ends the fix-up. */
    method InsertBlackUncleRight(node: RbNode, parent: RbNode, gparent: RbNode, uncle: RbNode?,
                                ghost S: set<RbNode>, ghost z: Path, ghost t: Tree, ghost h: int)
      requires Reddening(Snap(S), root, z, t, h) && !z.Here? && z.c.Red? && z.up.GoRight?
      requires node == t.n && parent == z.n && gparent == z.up.n && uncle == Top(z.up.sib)
      requires !RedTop(z.up.sib)
      modifies this, S
      ensures Valid() && Nodes(tree) == S && InOrder(tree) == Order(z, t)
    {
      hide Open, Nodes, PathNodes, Snap, Order, InOrder, Valid, Distinct, Balanced, PathBalanced, Apart;
      AroundDoubleRed(z, t, h);
      TwoUp(Snap(S), root, z, t);
      BesideParent(Snap(S), root, z, t);
      SnapAt(S, parent);
      ghost var s;
      if node == parent.right {
        s := InsertCase1AMirror(node, parent, gparent, uncle, S, z, t, h);
        RedNode(z.up.sib, z.up.n, z.sib, h);
        BlackNode(s.l, s.n, s.r, h);
        Order1AMirror(z, t, Red, Black);
      } else {
        s := InsertCase1BMirror(node, parent, gparent, uncle, S, z, t, h);
        RedNode(z.up.sib, z.up.n, t.l, h);
        RedNode(t.r, z.n, z.sib, h);
        BlackNode(s.l, s.n, s.r, h);
        Order1BMirror(z, t, Red, Black, Red);
      }
      Reshape(z, t, z.up.up, s);
      Close(S, z.up.up, s, h + 1);
    }

    /** Case-2 and its mirror: a red uncle, only colours change. */
    method InsertRedUncle(parent: RbNode, gparent: RbNode, uncle: RbNode,
                          ghost S: set<RbNode>, ghost z: Path, ghost t: Tree, ghost h: int)
      returns (ghost s: Tree)
      requires Reddening(Snap(S), root, z, t, h) && !z.Here? && z.c.Red? && !z.up.Here?
      requires parent == z.n && gparent == z.up.n && uncle == Top(z.up.sib) && RedTop(z.up.sib)
      modifies S
      ensures Reddening(Snap(S), root, z.up.up, s, h + 1)
      ensures s.Bin? && s.n == gparent && Order(z.up.up, s) == Order(z, t)
    {
      hide Open, Snap, Nodes, PathNodes, Order, Balanced, PathBalanced, Apart;
      OpenApart(Snap(S), root, z, t);
      DoubleRedReads(Snap(S), root, z, t, h);
      ghost var up := z.up.up;
      s := Insert2(Snap(S), root, z, t, h);
      Insert2Paint(z, t);
      Insert2Balanced(z, t, h);
      Insert2Order(z, t);
      PaintNode(gparent, Red, S, up, s);
      s := Repaint(s, gparent, Red);
      PaintNode(parent, Black, S, up, s);
      s := Repaint(s, parent, Black);
      PaintNode(uncle, Black, S, up, s);
      s := Repaint(s, uncle, Black);
    }

    /** The red node has become the root: it turns black. */
    method InsertAtRoot(node: RbNode, ghost S: set<RbNode>, ghost z: Path, ghost t: Tree, ghost h: int)
      requires Reddening(Snap(S), root, z, t, h) && node == t.n && z.Here?
      modifies this, S
      ensures Valid() && Nodes(tree) == S && InOrder(tree) == Order(z, t)
    {
      OpenHas(Snap(S), root, z, t);
      PaintNode(node, Black, S, z, t);
      Close(S, z, t.(c := Black), h + 1);
    }

    /** The holder is black: there is no double red. */
    ghost method CloseRed(S: set<RbNode>, z: Path, t: Tree, h: int)
      requires Reddening(Snap(S), root, z, t, h) && !z.Here? && z.c.Black?
      modifies this`tree
      ensures Valid() && Nodes(tree) == S && InOrder(tree) == Order(z, t)
    {
      Close(S, z, t, h);
    }

    /** One round of `__rb_insert_color` under a red parent. */
    method InsertRound(node: RbNode, parent: RbNode,
                       ghost S: set<RbNode>, ghost z: Path, ghost t: Tree, ghost h: int)
      returns (done: bool, gparent: RbNode, ghost s: Tree)
      requires Reddening(Snap(S), root, z, t, h) && !z.Here? && z.c.Red?
      requires node == t.n && parent == z.n
      modifies this, S
      ensures !z.up.Here?
      ensures done ==> Valid() && Nodes(tree) == S && InOrder(tree) == Order(z, t)
      ensures !done ==>
        && Reddening(Snap(S), root, z.up.up, s, h + 1)
        && s.Bin? && gparent == s.n && Order(z.up.up, s) == Order(z, t)
    {
      hide Reddening, Valid, Nodes, InOrder, Order, Snap;
      DoubleRedReads(Snap(S), root, z, t, h);
      SnapAt(S, parent);
      gparent := parent.parent;
      s, done := t, true;
      SnapAt(S, gparent);
      if z.up.sib.Bin? { SnapAt(S, z.up.sib.n); }
      if parent == gparent.left {
        var uncle := gparent.right;
        if uncle == null || uncle.color == Black {
          InsertBlackUncleLeft(node, parent, gparent, uncle, S, z, t, h);
        } else {
          s := InsertRedUncle(parent, gparent, uncle, S, z, t, h);
          done := false;
        }
      } else {
        var uncle := gparent.left;
        if uncle == null || uncle.color == Black {
          InsertBlackUncleRight(node, parent, gparent, uncle, S, z, t, h);
        } else {
          s := InsertRedUncle(parent, gparent, uncle, S, z, t, h);
          done := false;
        }
      }
    }

    /** `__rb_insert_color` */
    method InsertColor(start: RbNode, ghost S: set<RbNode>, ghost z0: Path, ghost t0: Tree, ghost h0: int)
      requires t0.Bin? && Reddening(Snap(S), root, z0, t0, h0) && start == t0.n
      modifies this, S
      ensures Valid() && Nodes(tree) == S && InOrder(tree) == Order(z0, t0)
    {
      hide Reddening, Valid, Nodes, PathNodes, InOrder, Order, Snap, Balanced, PathBalanced;
      var node := start;
      var done := false;
      ghost var z, t, h := z0, t0, h0;
      while !done
        invariant done ==> Valid() && Nodes(tree) == S && InOrder(tree) == Order(z0, t0)
        invariant !done ==> t.Bin? && Reddening(Snap(S), root, z, t, h) && node == t.n && Order(z, t) == Order(z0, t0)
        decreases !done, Length(z)
      {
        ReddeningReads(Snap(S), root, z, t, h);
        SnapAt(S, node);
        var parent := node.parent;
        if parent == null {
          InsertAtRoot(node, S, z, t, h);
          done := true;
        } else {
          SnapAt(S, parent);
          if parent.color == Black {
            CloseRed(S, z, t, h);
            done := true;
          } else {
            done, node, t := InsertRound(node, parent, S, z, t, h);
            assert Length(z) == 2 + Length(z.up.up) by { assert Length(z.up) == 1 + Length(z.up.up); }
            z, h := z.up.up, h + 1;
          }
        }
      }
    }

    /** `__rb_link_node`; the link is the root pointer or a child field of `parent`. */
    method LinkLeaf(x: RbNode, parent: RbNode?, left: bool, ghost S: set<RbNode>)
      requires x !in S && (parent != null ==> parent in S)
      modifies this`root, S, x
      ensures Snap(S + {x}) == LinkNode(old(Snap(S)), x, parent, left)
      ensures root == NewRoot(old(root), parent, x)
    {
      x.parent, x.color, x.left, x.right := parent, Red, null, null;
      if parent == null {
        root := x;
      } else if left {
        SetLeft(parent, x, S + {x});
      } else {
        SetRight(parent, x, S + {x});
      }
    }

    /** The loop of `rb_insert`: down to an empty place. */
    method Descend(x: RbNode, less: (RbNode, RbNode) -> bool)
      returns (parent: RbNode?, left: bool, ghost z: Path)
      requires Valid()
      ensures tree == Plug(z, Nil) && parent == Holder(z) && (parent != null ==> left == z.GoLeft?)
      ensures Valid() && Followed(z, x, less)
    {
      ghost var m := Snap(Nodes(tree));
      ghost var t := tree;
      var cur := root;
      parent, left, z := null, false, Here;
      while cur != null
        invariant Plug(z, t) == tree && cur == Top(t) && parent == Holder(z)
        invariant parent != null ==> left == z.GoLeft?
        invariant Followed(z, x, less)
        invariant Linked(m, t, parent) && Distinct(t)
        decreases t
      {
        LinkedBin(m, t, parent);
        SnapAt(Nodes(tree), cur);
        parent := cur;
        if less(x, cur) {
          z, t := GoLeft(z, t.n, t.c, t.r), t.l;
          left, cur := true, cur.left;
        } else {
          z, t := GoRight(z, t.n, t.c, t.l), t.r;
          left, cur := false, cur.right;
        }
      }
    }

    /** `rb_insert`: the new node goes just after every node it is not less than. */
    method Insert(data: RbNode, less: (RbNode, RbNode) -> bool) returns (ghost k: nat)
      requires Valid() && data !in Nodes(tree)
      modifies this, Nodes(tree), data
      ensures Valid() && Nodes(tree) == old(Nodes(tree)) + {data}
      ensures k <= |old(InOrder(tree))|
      ensures InOrder(tree) == old(InOrder(tree))[..k] + [data] + old(InOrder(tree))[k..]
      ensures StrictWeak(less, Nodes(tree)) && Sorted(old(InOrder(tree)), less) ==>
        && AllBelow(old(InOrder(tree))[..k], data, less)
        && AllAbove(old(InOrder(tree))[k..], data, less)
        && Sorted(InOrder(tree), less)
    {
      hide Valid, Snap, Open, Plug, InOrder, Order, Nodes, PathNodes, Balanced, PathBalanced, Reddening, StrictWeak,
        Sorted, AllBelow, AllAbove, LinkNode, Followed;
      ghost var s, S := InOrder(tree), Nodes(tree);
      var parent, left;
      ghost var z;
      parent, left, z := Descend(data, less);
      ghost var h := Unclose(z, Nil);
      assert Nodes(Nil) == {} && S == PathNodes(z) by { NilNodes(); }
      LinkNodeReddening(Snap(S), root, z, data, h);
      LinkLeaf(data, parent, left, S);
      InsertColor(data, S + {data}, z, Leaf(data), h);
      k := InsertedAt(z, data, less, s, S + {data});
    }

    /** The order after an insertion. */
    ghost method InsertedAt(z: Path, x: RbNode, less: (RbNode, RbNode) -> bool, s: seq<RbNode>, S: set<RbNode>)
      returns (k: nat)
      requires s == Order(z, Nil) && Followed(z, x, less) && S == PathNodes(z) + {x}
      ensures k <= |s| && Order(z, Leaf(x)) == s[..k] + [x] + s[k..]
      ensures StrictWeak(less, S) && Sorted(s, less) ==>
        AllBelow(s[..k], x, less) && AllAbove(s[k..], x, less) && Sorted(s[..k] + [x] + s[k..], less)
    {
      k := |Before(z)|;
      assert s[..k] == Before(z) && s[k..] == After(z) && s == s[..k] + s[k..];
      assert InOrder(Leaf(x)) == [x];
      if StrictWeak(less, S) && Sorted(s, less) {
        Place(z, Nil, x, less, S);
        PlugInOrder(z, Nil);
        PlugNodes(z, Nil);
        InOrderNodes(Plug(z, Nil));
        InsertSorted(s[..k], x, s[k..], less, S);
      }
    }

    /** Case-1-A: the far nephew is red. */
    method EraseCase1A(node: RbNode?, parent: RbNode, sibling: RbNode, nephew: RbNode,
                  ghost S: set<RbNode>, ghost z: Path, ghost t: Tree, ghost h: int)
      requires Short(Snap(S), root, z, t, h) && z.GoLeft? && z.sib.Bin? && RedTop(z.sib.r) && nephew == z.sib.r.n
      requires node == Top(t) && parent == z.n && sibling == z.sib.n
      modifies this`root, S
      ensures Open(Snap(S), root, z.up, Done1A(z, t))
    {
      hide Linked, PathLinked, Apart, Distinct, PathDistinct, Balanced, PathBalanced, Nodes, PathNodes, Snap;
      ghost var m := Snap(S);
      NephewReads(m, root, z, t, h);
      SnapAt(S, parent);
      SnapAt(S, sibling);
      SnapAt(S, nephew);
      ghost var s := Erase1A(m, root, z, t, h);
      Rotate(parent, parent, sibling, nephew, node, sibling.left, nephew.left, nephew.right,
             S, z.up, s, z.n, z.sib.n, z.sib.r.n, z.sib.r.n);
      OpenHas(Snap(S), root, z.up, s);
      RotatedReads(Snap(S), root, z.up, s);
      SnapAt(S, parent);
      PaintNode(sibling, parent.color, S, z.up, s);
      s := Repaint(s, sibling, z.c);
      PaintNode(parent, Black, S, z.up, s);
      s := Repaint(s, parent, Black);
      PaintNode(nephew, Black, S, z.up, s);
      s := Repaint(s, nephew, Black);
      RefreshRoot(sibling, S, z.up, s);
    }

    /** Case-1-B: the near nephew is red. */
    method EraseCase1B(node: RbNode?, parent: RbNode, sibling: RbNode, nephew: RbNode,
                  ghost S: set<RbNode>, ghost z: Path, ghost t: Tree, ghost h: int)
      requires Short(Snap(S), root, z, t, h) && z.GoLeft? && z.sib.Bin? && z.sib.c.Black? && RedTop(z.sib.l)
        && nephew == z.sib.l.n
      requires node == Top(t) && parent == z.n && sibling == z.sib.n
      modifies this`root, S
      ensures Open(Snap(S), root, z.up, Done1B(z, t))
    {
      hide Linked, PathLinked, Apart, Distinct, PathDistinct, Balanced, PathBalanced, Nodes, PathNodes, Snap;
      ghost var m := Snap(S);
      NephewReads(m, root, z, t, h);
      SnapAt(S, parent);
      SnapAt(S, sibling);
      SnapAt(S, nephew);
      ghost var s := Erase1B(m, root, z, t, h);
      Rotate(parent, parent, nephew, sibling, node, nephew.left, nephew.right, sibling.right,
             S, z.up, s, z.n, z.sib.l.n, z.sib.l.n, z.sib.n);
      OpenHas(Snap(S), root, z.up, s);
      RotatedReads(Snap(S), root, z.up, s);
      SnapAt(S, parent);
      PaintNode(nephew, parent.color, S, z.up, s);
      s := Repaint(s, nephew, z.c);
      PaintNode(parent, Black, S, z.up, s);
      s := Repaint(s, parent, Black);
      RefreshRoot(nephew, S, z.up, s);
    }

    /** The mirror of Case-1-A. */
    method EraseCase1AMirror(node: RbNode?, parent: RbNode, sibling: RbNode, nephew: RbNode,
                  ghost S: set<RbNode>, ghost z: Path, ghost t: Tree, ghost h: int)
      requires Short(Snap(S), root, z, t, h) && z.GoRight? && z.sib.Bin? && RedTop(z.sib.l) && nephew == z.sib.l.n
      requires node == Top(t) && parent == z.n && sibling == z.sib.n
      modifies this`root, S
      ensures Open(Snap(S), root, z.up, Done1AMirror(z, t))
    {
      hide Linked, PathLinked, Apart, Distinct, PathDistinct, Balanced, PathBalanced, Nodes, PathNodes, Snap;
      ghost var m := Snap(S);
      NephewReads(m, root, z, t, h);
      SnapAt(S, parent);
      SnapAt(S, sibling);
      SnapAt(S, nephew);
      ghost var s := Erase1AMirror(m, root, z, t, h);
      Rotate(parent, nephew, sibling, parent, nephew.left, nephew.right, sibling.right, node,
             S, z.up, s, z.sib.l.n, z.sib.l.n, z.sib.n, z.n);
      OpenHas(Snap(S), root, z.up, s);
      RotatedReads(Snap(S), root, z.up, s);
      SnapAt(S, parent);
      PaintNode(sibling, parent.color, S, z.up, s);
      s := Repaint(s, sibling, z.c);
      PaintNode(nephew, Black, S, z.up, s);
      s := Repaint(s, nephew, Black);
      PaintNode(parent, Black, S, z.up, s);
      s := Repaint(s, parent, Black);
      RefreshRoot(sibling, S, z.up, s);
    }

    /** The mirror of Case-1-B. */
    method EraseCase1BMirror(node: RbNode?, parent: RbNode, sibling: RbNode, nephew: RbNode,
                  ghost S: set<RbNode>, ghost z: Path, ghost t: Tree, ghost h: int)
      requires Short(Snap(S), root, z, t, h) && z.GoRight? && z.sib.Bin? && z.sib.c.Black? && RedTop(z.sib.r)
        && nephew == z.sib.r.n
      requires node == Top(t) && parent == z.n && sibling == z.sib.n
      modifies this`root, S
      ensures Open(Snap(S), root, z.up, Done1BMirror(z, t))
    {
      hide Linked, PathLinked, Apart, Distinct, PathDistinct, Balanced, PathBalanced, Nodes, PathNodes, Snap;
      ghost var m := Snap(S);
      NephewReads(m, root, z, t, h);
      SnapAt(S, parent);
      SnapAt(S, sibling);
      SnapAt(S, nephew);
      ghost var s := Erase1BMirror(m, root, z, t, h);
      Rotate(parent, sibling, nephew, parent, sibling.left, nephew.left, nephew.right, node,
             S, z.up, s, z.sib.n, z.sib.r.n, z.sib.r.n, z.n);
      OpenHas(Snap(S), root, z.up, s);
      RotatedReads(Snap(S), root, z.up, s);
      SnapAt(S, parent);
      PaintNode(nephew, parent.color, S, z.up, s);
      s := Repaint(s, nephew, z.c);
      PaintNode(parent, Black, S, z.up, s);
      s := Repaint(s, parent, Black);
      RefreshRoot(nephew, S, z.up, s);
    }

    /** A rotation has made up for the missing black node. */
    ghost method CloseCase1(S: set<RbNode>, z: Path, t: Tree, h: int, s: Tree)
      requires !z.Here? && Open(Snap(S), root, z.up, s) && S == PathNodes(z) + Nodes(t)
      requires Order(z.up, s) == Order(z, t)
      requires Balanced(s, Above(z, h)) && PathBalanced(z.up, Above(z, h))
      requires RedTop(s) ==> RedAllowed(z.up)
      modifies this`tree
      ensures Valid() && Nodes(tree) == S && InOrder(tree) == Order(z, t)
    {
      hide Linked, PathLinked, Apart, Balanced, PathBalanced, Order, Above, Snap;
      Reshape(z, t, z.up, s);
      Close(S, z.up, s, Above(z, h));
    }

    /** Case-2 and Case-3: the sibling turns red, the parent is or turns black. */
    method EraseLower(parent: RbNode, sibling: RbNode,
                      ghost S: set<RbNode>, ghost z: Path, ghost t: Tree, ghost h: int)
      returns (done: bool)
      requires Short(Snap(S), root, z, t, h) && !z.Here? && z.sib.Bin? && z.sib.c.Black?
      requires !RedTop(z.sib.l) && !RedTop(z.sib.r)
      requires parent == z.n && sibling == z.sib.n
      modifies this, S
      ensures done == z.c.Red?
      ensures done ==> Valid() && Nodes(tree) == S && InOrder(tree) == Order(z, t)
      ensures !done ==> Short(Snap(S), root, z.up, Lowered(z, t), h + 1) && Order(z.up, Lowered(z, t)) == Order(z, t)
      ensures !done ==> Rank(z.up) < Rank(z)
    {
      hide Open, Balanced, PathBalanced, Nodes, PathNodes, Snap, Order, Rank, Valid, InOrder;
      NephewReads(Snap(S), root, z, t, h);
      LoweredBalanced(z, t, h);
      LoweredOrder(z, t);
      OpenUp(Snap(S), root, z, t);
      ShortReads(Snap(S), root, z, t, h);
      SnapAt(S, parent);
      assert z.c.Black? ==> Repaint(Up(z, t), sibling, Red) == Lowered(z, t);
      assert Repaint(Repaint(Up(z, t), parent, Black), sibling, Red) == Lowered(z, t);
      if parent.color == Black {
        PaintNode(sibling, Red, S, z.up, Up(z, t));
        done := false;
      } else {
        PaintNode(parent, Black, S, z.up, Up(z, t));
        PaintNode(sibling, Red, S, z.up, Repaint(Up(z, t), parent, Black));
        Close(S, z.up, Lowered(z, t), h + 1);
        done := true;
      }
    }

    /** Case-4 and its mirror: a red sibling. */
    method EraseSwing(parent: RbNode, sibling: RbNode, left: bool,
                      ghost S: set<RbNode>, ghost z: Path, ghost t: Tree, ghost h: int)
      requires Short(Snap(S), root, z, t, h) && !z.Here? && z.sib.Bin? && z.sib.c.Red?
      requires parent == z.n && sibling == z.sib.n && left == z.GoLeft?
      modifies this`root, S
      ensures Short(Snap(S), root, SwungPath(z), t, h)
      ensures Order(SwungPath(z), t) == Order(z, t) && Rank(SwungPath(z)) < Rank(z)
    {
      hide Short, Nodes, PathNodes, Order, Rank, Snap, SwungPath;
      Erase4(Snap(S), root, z, t, h);
      SnapAt(S, parent);
      SwingRaw(parent, sibling, left, S);
    }

    method SwingRaw(parent: RbNode, sibling: RbNode, left: bool, ghost S: set<RbNode>)
      requires parent in S && sibling in S
      requires var m := Snap(S);
        Has(m, m[parent].parent) && Has(m, m[sibling].left) && Has(m, m[sibling].right)
      modifies this`root, S
      ensures var m := old(Snap(S));
        Snap(S) == Paint(Paint(Swing(m, parent, sibling, left), sibling, Black), parent, Red)
      ensures root == NewRoot(old(root), old(parent.parent), sibling)
    {
      hide Snap, ChangeChild, TakeNear, HangUnder, Paint, NewRoot;
      var near := if left then sibling.left else sibling.right;
      SnapAt(S, parent);
      SnapAt(S, sibling);
      ReplaceChild(parent.parent, parent, sibling, S);
      TakeNearRaw(parent, near, left, S);
      HangUnderRaw(parent, sibling, left, S);
      SetColor(sibling, Black, S);
      SetColor(parent, Red, S);
    }

    static method TakeNearRaw(parent: RbNode, near: RbNode?, left: bool, ghost S: set<RbNode>)
      requires parent in S && Has(Snap(S), near)
      modifies S
      ensures Snap(S) == TakeNear(old(Snap(S)), parent, near, left)
    {
      if left { SetRight(parent, near, S); } else { SetLeft(parent, near, S); }
      SetParentOf(near, parent, S);
    }

    static method HangUnderRaw(parent: RbNode, sibling: RbNode, left: bool, ghost S: set<RbNode>)
      requires parent in S && sibling in S
      modifies S
      ensures Snap(S) == HangUnder(old(Snap(S)), parent, sibling, left)
    {
      if left { SetLeft(sibling, parent, S); } else { SetRight(sibling, parent, S); }
      SetParentOf(parent, sibling, S);
    }

    /** A black sibling on the right: Case-1 to Case-3. */
    method EraseBlackLeft(node: RbNode?, parent: RbNode, sibling: RbNode,
                          ghost S: set<RbNode>, ghost z: Path, ghost t: Tree, ghost h: int)
      returns (done: bool)
      requires Short(Snap(S), root, z, t, h) && z.GoLeft? && z.sib.Bin? && z.sib.c.Black?
      requires node == Top(t) && parent == z.n && sibling == z.sib.n
      modifies this, S
      ensures done ==> Valid() && Nodes(tree) == S && InOrder(tree) == Order(z, t)
      ensures !done ==> Short(Snap(S), root, z.up, Lowered(z, t), h + 1) && Order(z.up, Lowered(z, t)) == Order(z, t)
      ensures !done ==> Rank(z.up) < Rank(z)
    {
      hide Open, Balanced, PathBalanced, Nodes, PathNodes, Snap, Order, Rank, Valid, InOrder, Above;
      ShortReads(Snap(S), root, z, t, h);
      SnapAt(S, sibling);
      if z.sib.l.Bin? { SnapAt(S, z.sib.l.n); }
      if z.sib.r.Bin? { SnapAt(S, z.sib.r.n); }
      Case1Balanced(z, t, h);
      if sibling.right != null && sibling.right.color == Red {
        EraseCase1A(node, parent, sibling, sibling.right, S, z, t, h);
        Done1AOrder(z, t);
        CloseCase1(S, z, t, h, Done1A(z, t));
        done := true;
      } else if sibling.left != null && sibling.left.color == Red {
        EraseCase1B(node, parent, sibling, sibling.left, S, z, t, h);
        EraseOrder1B(z, t, Black, z.c, Black);
        CloseCase1(S, z, t, h, Done1B(z, t));
        done := true;
      } else {
        done := EraseLower(parent, sibling, S, z, t, h);
      }
    }

    /** A black sibling on the left: Case-1 to Case-3. */
    method EraseBlackRight(node: RbNode?, parent: RbNode, sibling: RbNode,
                          ghost S: set<RbNode>, ghost z: Path, ghost t: Tree, ghost h: int)
      returns (done: bool)
      requires Short(Snap(S), root, z, t, h) && z.GoRight? && z.sib.Bin? && z.sib.c.Black?
      requires node == Top(t) && parent == z.n && sibling == z.sib.n
      modifies this, S
      ensures done ==> Valid() && Nodes(tree) == S && InOrder(tree) == Order(z, t)
      ensures !done ==> Short(Snap(S), root, z.up, Lowered(z, t), h + 1) && Order(z.up, Lowered(z, t)) == Order(z, t)
      ensures !done ==> Rank(z.up) < Rank(z)
    {
      hide Open, Balanced, PathBalanced, Nodes, PathNodes, Snap, Order, Rank, Valid, InOrder, Above;
      ShortReads(Snap(S), root, z, t, h);
      SnapAt(S, sibling);
      if z.sib.l.Bin? { SnapAt(S, z.sib.l.n); }
      if z.sib.r.Bin? { SnapAt(S, z.sib.r.n); }
      Case1Balanced(z, t, h);
      if sibling.left != null && sibling.left.color == Red {
        EraseCase1AMirror(node, parent, sibling, sibling.left, S, z, t, h);
        Done1AMirrorOrder(z, t);
        CloseCase1(S, z, t, h, Done1AMirror(z, t));
        done := true;
      } else if sibling.right != null && sibling.right.color == Red {
        EraseCase1BMirror(node, parent, sibling, sibling.right, S, z, t, h);
        EraseOrder1BMirror(z, t, Black, z.c, Black);
        CloseCase1(S, z, t, h, Done1BMirror(z, t));
        done := true;
      } else {
        done := EraseLower(parent, sibling, S, z, t, h);
      }
    }

    /** One round of `__rb_erase_color` under a holder. */
    method EraseRound(node: RbNode?, parent: RbNode,
                      ghost S: set<RbNode>, ghost z: Path, ghost t: Tree, ghost h: int)
      returns (done: bool, up: bool, ghost y: Path, ghost s: Tree, ghost k: int)
      requires Short(Snap(S), root, z, t, h) && !z.Here?
      requires node == Top(t) && parent == z.n
      modifies this, S
      ensures done ==> Valid() && Nodes(tree) == S && InOrder(tree) == Order(z, t)
      ensures !done ==> Short(Snap(S), root, y, s, k) && Order(y, s) == Order(z, t) && Rank(y) < Rank(z)
      ensures !done && up ==> Top(s) == parent
      ensures !done && !up ==> s == t && Holder(y) == parent
    {
      hide Short, Nodes, PathNodes, Snap, Order, Rank, Valid, InOrder;
      ShortReads(Snap(S), root, z, t, h);
      SnapAt(S, parent);
      SnapAt(S, z.sib.n);
      y, s, k := z, t, h;
      if node == parent.left {
        var sibling := parent.right;
        if sibling.color == Black {
          done := EraseBlackLeft(node, parent, sibling, S, z, t, h);
          up, y, s, k := true, z.up, Lowered(z, t), h + 1;
        } else {
          EraseSwing(parent, sibling, true, S, z, t, h);
          done, up, y := false, false, SwungPath(z);
        }
      } else {
        var sibling := parent.left;
        if sibling.color == Black {
          done := EraseBlackRight(node, parent, sibling, S, z, t, h);
          up, y, s, k := true, z.up, Lowered(z, t), h + 1;
        } else {
          EraseSwing(parent, sibling, false, S, z, t, h);
          done, up, y := false, false, SwungPath(z);
        }
      }
    }

    /** `__rb_erase_color` */
    method EraseColor(parent0: RbNode, is_left_child: bool,
                      ghost S: set<RbNode>, ghost z0: Path, ghost t0: Tree, ghost h0: int)
      requires Short(Snap(S), root, z0, t0, h0) && !z0.Here?
      requires parent0 == z0.n && is_left_child == z0.GoLeft?
      modifies this, S
      ensures Valid() && Nodes(tree) == S && InOrder(tree) == Order(z0, t0)
    {
      hide Short, Nodes, PathNodes, Snap, Order, Rank, Valid, InOrder;
      ShortReads(Snap(S), root, z0, t0, h0);
      SnapAt(S, parent0);
      var parent: RbNode? := parent0;
      var node := if is_left_child then parent0.left else parent0.right;
      var done := false;
      ghost var z, t, h := z0, t0, h0;
      ShortHolder(Snap(S), root, z, t, h);
      while !done
        invariant done ==> Valid() && Nodes(tree) == S && InOrder(tree) == Order(z0, t0)
        invariant !done ==> Short(Snap(S), root, z, t, h) && Order(z, t) == Order(z0, t0)
        invariant !done ==> node == Top(t) && parent == Holder(z)
        decreases !done, Rank(z)
      {
        if parent == null {
          CloseShort(S, z, t, h);
          done := true;
        } else {
          var up;
          ghost var y, s, k;
          done, up, y, s, k := EraseRound(node, parent, S, z, t, h);
          if !done {
            ShortHolder(Snap(S), root, y, s, k);
            if up {
              SnapAt(S, parent);
              node, parent := parent, parent.parent;
            }
          }
          z, t, h := y, s, k;
        }
      }
    }

    /** The whole tree has become one black node shorter. */
    ghost method CloseShort(S: set<RbNode>, z: Path, t: Tree, h: int)
      requires Short(Snap(S), root, z, t, h) && z.Here?
      modifies this`tree
      ensures Valid() && Nodes(tree) == S && InOrder(tree) == Order(z, t)
    {
      Close(S, z, t, h);
    }

    // ---------- rb_erase ----------

    /** A subtree of a valid tree, before a node is taken out. */
    ghost predicate Whole(S: set<RbNode>, z: Path, t: Tree, h: int)
      reads this, S
    {
      && Open(Snap(S), root, z, t)
      && S == PathNodes(z) + Nodes(t)
      && PathBalanced(z, h) && Balanced(t, h)
      && (RedTop(t) ==> RedAllowed(z))
    }

    /** The node `x` is out of the links. */
    ghost predicate Without(S: set<RbNode>, x: RbNode, z: Path, t: Tree)
      reads this, S
    {
      && Open(Snap(S), root, z, t)
      && x !in PathNodes(z) + Nodes(t)
      && S == PathNodes(z) + Nodes(t) + {x}
    }

    ghost method CloseWithout(S: set<RbNode>, x: RbNode, z: Path, t: Tree, h: int)
      requires Without(S, x, z, t)
      requires PathBalanced(z, h) && Balanced(t, h)
      requires RedTop(t) ==> RedAllowed(z)
      modifies this`tree
      ensures tree == Plug(z, t) && Valid() && Nodes(tree) == S - {x} && InOrder(tree) == Order(z, t)
    {
      hide Open, PathBalanced, Balanced, PathNodes, Nodes, Order;
      assert Same(Snap(S), Snap(S - {x}), PathNodes(z) + Nodes(t));
      OpenAgree(Snap(S), Snap(S - {x}), root, z, t);
      assert S - {x} == PathNodes(z) + Nodes(t);
      Close(S - {x}, z, t, h);
    }

    lemma ShortWithout(S: set<RbNode>, x: RbNode, z: Path, t: Tree, h: int)
      requires Without(S, x, z, t)
      requires PathBalanced(z, h + 1) && Balanced(t, h) && !RedTop(t)
      ensures Short(Snap(S - {x}), root, z, t, h)
    {
      hide Open, PathBalanced, Balanced, PathNodes, Nodes;
      assert Same(Snap(S), Snap(S - {x}), PathNodes(z) + Nodes(t));
      OpenAgree(Snap(S), Snap(S - {x}), root, z, t);
      assert S - {x} == PathNodes(z) + Nodes(t);
    }

    /** A child takes the place of its parent, which leaves the tree. */
    method Splice(node: RbNode, child: RbNode?, ghost S: set<RbNode>, ghost z: Path, ghost t: Tree, ghost u: Tree)
      requires Open(Snap(S), root, z, t) && t.Bin? && node == t.n
      requires u == t.l || u == t.r
      requires child == Top(u)
      modifies this`root, S
      ensures Open(Snap(S), root, z, u)
    {
      hide Linked, PathLinked, Apart, Nodes, PathNodes, ChangeChild, Outer, Snap;
      OpenHas(Snap(S), root, z, t);
      SnapAt(S, node);
      SpliceOpen(Snap(S), root, z, t, u);
      ReplaceChild(node.parent, node, child, S);
    }

    /** `__rb_erase` of a node without a left child. */
    method EraseNoLeft(node: RbNode, ghost S: set<RbNode>, ghost z: Path, ghost t: Tree, ghost h: int)
      returns (rebalance: RbNode?, is_left_child: bool)
      requires Whole(S, z, t, h) && t.Bin? && node == t.n && t.l.Nil?
      modifies this, S
      ensures rebalance == null ==>
        Valid() && Nodes(tree) == S - {node} && InOrder(tree) == Order(z, t.r)
      ensures rebalance != null ==>
        && !z.Here? && rebalance == z.n && is_left_child == z.GoLeft?
        && Short(Snap(S - {node}), root, z, t.r, 0)
    {
      NoLeftNodes(z, t);
      hide Open, PathBalanced, Balanced, PathNodes, Nodes, InOrder, Order, Valid, Short, Snap, Apart;
      ghost var u := t.r;
      OpenHas(Snap(S), root, z, t);
      SnapAt(S, node);
      NoLeftHeight(t, h);
      var parent := node.parent;
      rebalance, is_left_child := null, false;
      if node.right == null {
        if node.color == Black && parent != null {
          SnapAt(S, parent);
          rebalance, is_left_child := parent, node == parent.left;
        }
        Splice(node, null, S, z, t, u);
        if rebalance == null {
          CloseWithout(S, node, z, u, 0);
        } else {
          ShortWithout(S, node, z, u, 0);
        }
      } else {
        PaintNode(node.right, Black, S, z, t);
        u := u.(c := Black);
        Splice(node, node.right, S, z, t.(r := u), u);
        CloseWithout(S, node, z, u, 1);
        RecolorOrder(z, t.r);
      }
    }

    /** `__rb_erase` of a node with only a left child. */
    method EraseNoRight(node: RbNode, ghost S: set<RbNode>, ghost z: Path, ghost t: Tree, ghost h: int)
      requires Whole(S, z, t, h) && t.Bin? && node == t.n && t.r.Nil? && t.l.Bin?
      modifies this, S
      ensures Valid() && Nodes(tree) == S - {node} && InOrder(tree) == Order(z, t.l)
    {
      NoRightNodes(z, t);
      hide Open, PathBalanced, Balanced, PathNodes, Nodes, InOrder, Order, Valid, Snap, Apart;
      OpenHas(Snap(S), root, z, t);
      SnapAt(S, node);
      NoRightHeight(t, h);
      var child := node.left;
      Splice(node, child, S, z, t, t.l);
      OpenHas(Snap(S), root, z, t.l);
      PaintNode(child, Black, S, z, t.l);
      CloseWithout(S, node, z, t.l.(c := Black), 1);
      RecolorOrder(z, t.l);
    }

    method PromoteRaw(node: RbNode, succ: RbNode, ghost S: set<RbNode>)
      requires node in S && succ in S
      requires Has(Snap(S), node.parent) && Has(Snap(S), node.left) && node.left != null && node != succ
      requires ChangeChild(Snap(S), node.parent, node, succ)[node] == Snap(S)[node]
      modifies this`root, S
      ensures Snap(S) == Promote(old(Snap(S)), node, succ)
      ensures root == NewRoot(old(root), old(node.parent), succ)
    {
      ghost var m := Snap(S);
      SnapAt(S, node);
      hide ChangeChild, Snap;
      ReplaceChild(node.parent, node, succ, S);
      SnapAt(S, node);
      SetColor(succ, node.color, S);
      SnapAt(S, node);
      SetLeft(succ, node.left, S);
      SnapAt(S, node);
      SetParentOf(node.left, succ, S);
    }

    /** The successor's child turns black when it is red; otherwise a black successor leaves a gap. */
    method FixSuccessorChild(succ: RbNode, child: RbNode?, ghost S: set<RbNode>, ghost y: Path, ghost u: Tree)
      returns (short: bool)
      requires Open(Snap(S), root, y, u) && u.Bin? && succ == u.n && child == Top(u.r)
      modifies S
      ensures short == (u.c.Black? && !RedTop(u.r))
      ensures Open(Snap(S), root, y, if u.c.Black? then u.(r := Fixed(u.r)) else u)
    {
      hide Linked, PathLinked, Apart, Nodes, PathNodes, Snap;
      OpenHas(Snap(S), root, y, u);
      ChildReads(Snap(S), root, y, u);
      SnapAt(S, succ);
      if child != null { SnapAt(S, child); }
      short := false;
      if succ.color == Black {
        if child != null && child.color == Red {
          PaintNode(child, Black, S, y, u);
        } else {
          short := true;
        }
      }
    }

    /** `__rb_erase` of a node whose successor is its right child. */
    method EraseNearSuccessor(node: RbNode, succ: RbNode, ghost S: set<RbNode>, ghost z: Path, ghost t: Tree,
      ghost h: int)
      returns (rebalance: RbNode?, ghost y: Path, ghost s: Tree)
      requires Whole(S, z, t, h) && t.Bin? && node == t.n && t.l.Bin? && t.r.Bin? && t.r.l.Nil? && succ == t.r.n
      modifies this, S
      ensures rebalance == null ==>
        Valid() && Nodes(tree) == S - {node} && InOrder(tree) == Gap(z, t)
      ensures rebalance != null ==>
        && y.GoRight? && rebalance == y.n && Order(y, s) == Gap(z, t)
        && Short(Snap(S - {node}), root, y, s, 0)
    {
      hide Open, PathBalanced, Balanced, PathNodes, Nodes, InOrder, Order, Valid, Short, Snap, Apart, Gap, Without,
        Repaint;
      OpenApart(Snap(S), root, z, t);
      PromoteNodes(z, t);
      ghost var k := RightBalanced(z, t, h);
      ghost var u := t.r;
      SuccessorHeight(RightOf(z, t), u, k);
      s := Fixed(u.r);
      y := GoRight(z, succ, t.c, t.l);
      assert PathBalanced(y, k) by { SamePlace(RightOf(z, t), succ, k); }
      OpenUp(Snap(S), root, RightOf(z, t), u);
      OpenHas(Snap(S), root, RightOf(z, t), u);
      SnapAt(S, succ);
      var short := FixSuccessorChild(succ, succ.right, S, RightOf(z, t), u);
      u := u.(r := s);
      OpenUp(Snap(S), root, RightOf(z, t), u);
      MoveUp(node, succ, S, z, t.(r := u));
      WithoutFrom(S, node, y, s);
      if short {
        rebalance := succ;
        ShortWithout(S, node, y, s, 0);
      } else {
        rebalance := null;
        CloseWithout(S, node, y, s, k);
      }
    }

    /** The right child takes the place, the colour and the left child of the node. */
    method MoveUp(node: RbNode, succ: RbNode, ghost S: set<RbNode>, ghost z: Path, ghost t: Tree)
      requires Open(Snap(S), root, z, t) && t.Bin? && t.l.Bin? && t.r.Bin? && t.r.l.Nil?
      requires node == t.n && succ == t.r.n
      modifies this`root, S
      ensures Open(Snap(S), root, GoRight(z, succ, t.c, t.l), t.r.r)
    {
      hide Linked, PathLinked, Apart, Nodes, PathNodes, Snap, Promote, ChangeChild, Outer;
      OpenHas(Snap(S), root, z, t);
      PromoteOpen(Snap(S), root, z, t);
      SpliceKeeps(Snap(S), root, z, t);
      SnapAt(S, node);
      PromoteRaw(node, succ, S);
      OpenUp(Snap(S), root, GoRight(z, succ, t.c, t.l), t.r.r);
    }

    lemma WithoutFrom(S: set<RbNode>, x: RbNode, z: Path, t: Tree)
      requires Open(Snap(S), root, z, t)
      requires x !in PathNodes(z) + Nodes(t) && S == PathNodes(z) + Nodes(t) + {x}
      ensures Without(S, x, z, t)
    {
    }

    /** `rb_replace_node` */
    method ReplaceRaw(x: RbNode, s: RbNode, ghost S: set<RbNode>)
      requires x in S && s in S && x != s
      requires Has(Snap(S), x.parent) && Has(Snap(S), x.left) && Has(Snap(S), x.right)
      requires x.left != x && x.right != x
      modifies this`root, S
      ensures Snap(S) == ReplaceNode(old(Snap(S)), x, s)
      ensures root == NewRoot(old(root), old(x.parent), s)
    {
      hide Snap, SetParent, ChangeChild;
      ghost var m := Snap(S);
      SnapAt(S, x);
      CopyNode(x, s, S);
      SetParentOf(x.left, s, S);
      SetParentOf(x.right, s, S);
      ReplaceChild(x.parent, x, s, S);
    }

    /** `*new = *old` */
    static method CopyNode(x: RbNode, s: RbNode, ghost S: set<RbNode>)
      requires x in S && s in S && x != s
      modifies s
      ensures Snap(S) == old(Snap(S))[s := old(Snap(S))[x]]
      ensures s.left == x.left && s.right == x.right
    {
      s.left, s.right, s.parent, s.color := x.left, x.right, x.parent, x.color;
    }

    /** `rb_replace_node` on a linked tree. */
    method Replace(x: RbNode, s: RbNode, ghost S: set<RbNode>, ghost z: Path, ghost t: Tree)
      requires Open(Snap(S), root, z, t) && t.Bin? && x == t.n
      requires s in S && s !in PathNodes(z) && s !in Nodes(t)
      modifies this`root, S
      ensures Open(Snap(S), root, z, t.(n := s))
    {
      ReplaceReads(Snap(S), root, z, t);
      hide Linked, PathLinked, Apart, Nodes, PathNodes, Snap, ReplaceNode, Outer;
      ReplaceOpen(Snap(S), root, z, t, s);
      SnapAt(S, x);
      ReplaceRaw(x, s, S);
    }

    /** The loop of `__rb_erase` that looks for the successor. */
    method FindSuccessor(start: RbNode, ghost S: set<RbNode>, ghost base: Path, ghost r: Tree)
      returns (succ: RbNode, ghost y: Path, ghost u: Tree)
      requires Open(Snap(S), root, base, r) && r.Bin? && start == r.n && r.l.Bin?
      ensures r == Plug(y, u) && u.Bin? && u.l.Nil? && succ == u.n && LeftSpine(y) && !y.Here?
      ensures Open(Snap(S), root, Append(y, base), u)
    {
      hide Open, Snap;
      succ, y, u := start, Here, r;
      OpenHas(Snap(S), root, Append(y, base), u);
      SnapAt(S, succ);
      while succ.left != null
        invariant r == Plug(y, u) && u.Bin? && succ == u.n && LeftSpine(y)
        invariant succ in S && (succ.left == null <==> u.l.Nil?)
        invariant u.l.Nil? ==> !y.Here?
        invariant Open(Snap(S), root, Append(y, base), u)
        decreases u
      {
        OpenHas(Snap(S), root, Append(y, base), u);
        SnapAt(S, succ);
        succ, y, u := succ.left, GoLeft(y, u.n, u.c, u.r), u.l;
        OpenUp(Snap(S), root, Append(y, base), u);
        OpenHas(Snap(S), root, Append(y, base), u);
        SnapAt(S, succ);
      }
    }

    /** `__rb_erase` of a node whose successor lies further down. */
    method EraseFarSuccessor(node: RbNode, succ: RbNode, ghost S: set<RbNode>, ghost z: Path, ghost t: Tree,
      ghost h: int,
                             ghost y: Path, ghost u: Tree)
      returns (rebalance: RbNode?, is_left_child: bool, ghost yy: Path, ghost s: Tree)
      requires Whole(S, z, t, h) && t.Bin? && node == t.n
      requires t.r == Plug(y, u) && u.Bin? && u.l.Nil? && succ == u.n && LeftSpine(y) && !y.Here?
      requires Open(Snap(S), root, Append(y, RightOf(z, t)), u)
      modifies this, S
      ensures rebalance == null ==>
        Valid() && Nodes(tree) == S - {node} && InOrder(tree) == Gap(z, t)
      ensures rebalance != null ==>
        && !yy.Here? && rebalance == yy.n && is_left_child == yy.GoLeft? && Order(yy, s) == Gap(z, t)
        && Short(Snap(S - {node}), root, yy, s, 0)
    {
      hide Open, PathBalanced, Balanced, PathNodes, Nodes, InOrder, Order, Valid, Short, Snap, Apart, Gap, Without,
        Repaint, Plug;
      ghost var base := RightOf(z, t);
      ghost var zz := Append(y, base);
      OpenApart(Snap(S), root, z, t);
      FarNodes(z, t, y, u);
      FarOrder(z, t, y, u);
      ghost var k := RightBalanced(z, t, h);
      k := AppendUnplug(y, base, u, k);
      SuccessorHeight(zz, u, k);
      s, yy := Fixed(u.r), Append(y, GoRight(z, succ, t.c, t.l));
      AppendBalanced(y, base, succ, k);
      OpenHas(Snap(S), root, zz, u);
      SnapAt(S, succ);
      var parent := succ.parent;
      SnapAt(S, parent);
      var left := succ == parent.left;
      var child := succ.right;
      var short := FixSuccessorChild(succ, child, S, zz, u);
      Splice(succ, child, S, zz, u.(r := s), s);
      SuccessorMoves(node, succ, S, z, t, y, s);
      WithoutFrom(S, node, yy, s);
      if short {
        rebalance, is_left_child := parent, left;
        ShortWithout(S, node, yy, s, 0);
      } else {
        rebalance, is_left_child := null, false;
        CloseWithout(S, node, yy, s, k);
      }
    }

    method SuccessorMoves(node: RbNode, succ: RbNode, ghost S: set<RbNode>, ghost z: Path, ghost t: Tree, ghost y: Path,
      ghost s: Tree)
      requires t.Bin? && node == t.n && Open(Snap(S), root, Append(y, RightOf(z, t)), s)
      requires succ in S && succ !in PathNodes(z) && succ !in Nodes(Bin(t.l, t.n, t.c, Plug(y, s)))
      modifies this`root, S
      ensures Open(Snap(S), root, Append(y, GoRight(z, succ, t.c, t.l)), s)
    {
      hide Open, Snap, Nodes, PathNodes, Plug, Append;
      AppendOpen(Snap(S), root, y, RightOf(z, t), s);
      OpenUp(Snap(S), root, RightOf(z, t), Plug(y, s));
      ghost var t2 := Bin(t.l, t.n, t.c, Plug(y, s));
      Replace(node, succ, S, z, t2);
      OpenUp(Snap(S), root, GoRight(z, succ, t.c, t.l), Plug(y, s));
      AppendOpen(Snap(S), root, y, GoRight(z, succ, t.c, t.l), s);
    }

    /** `__rb_erase` */
    method Unlink(node: RbNode, ghost S: set<RbNode>, ghost z: Path, ghost t: Tree, ghost h: int)
      returns (rebalance: RbNode?, is_left_child: bool, ghost y: Path, ghost s: Tree)
      requires Whole(S, z, t, h) && t.Bin? && node == t.n
      modifies this, S
      ensures rebalance == null ==>
        Valid() && Nodes(tree) == S - {node} && InOrder(tree) == Gap(z, t)
      ensures rebalance != null ==>
        && !y.Here? && rebalance == y.n && is_left_child == y.GoLeft? && Order(y, s) == Gap(z, t)
        && Short(Snap(S - {node}), root, y, s, 0)
    {
      hide Open, PathBalanced, Balanced, PathNodes, Nodes, InOrder, Order, Valid, Short, Snap, Gap;
      OpenHas(Snap(S), root, z, t);
      SnapAt(S, node);
      GapEnds(z, t);
      y, s, is_left_child := z, t.r, false;
      if node.left == null {
        rebalance, is_left_child := EraseNoLeft(node, S, z, t, h);
      } else if node.right == null {
        EraseNoRight(node, S, z, t, h);
        rebalance := null;
      } else {
        var succ := node.right;
        OpenUp(Snap(S), root, RightOf(z, t), t.r);
        OpenHas(Snap(S), root, RightOf(z, t), t.r);
        SnapAt(S, succ);
        if succ.left == null {
          rebalance, y, s := EraseNearSuccessor(node, succ, S, z, t, h);
        } else {
          ghost var d, u;
          succ, d, u := FindSuccessor(succ, S, RightOf(z, t), t.r);
          rebalance, is_left_child, y, s := EraseFarSuccessor(node, succ, S, z, t, h, d, u);
        }
      }
    }

    /** `rb_erase`: exactly the given node leaves the order. */
    method Erase(node: RbNode) returns (ghost i: nat)
      requires Valid() && node in Nodes(tree)
      modifies this, Nodes(tree)
      ensures Valid() && Nodes(tree) == old(Nodes(tree)) - {node}
      ensures i < |old(InOrder(tree))| && old(InOrder(tree))[i] == node
      ensures InOrder(tree) == old(InOrder(tree))[..i] + old(InOrder(tree))[i + 1..]
    {
      hide Valid, Nodes, InOrder, Order, Short, Gap, Snap, Balanced, PathBalanced, Open, Plug;
      ghost var S, o := Nodes(tree), InOrder(tree);
      ghost var z, t := Locate(Here, tree, node);
      assert Plug(Here, tree) == tree by { PlugHere(tree); }
      ghost var h := Unclose(z, t);
      i := GapAt(z, t);
      var rebalance, is_left_child;
      ghost var y, s;
      rebalance, is_left_child, y, s := Unlink(node, S, z, t, h);
      if rebalance != null {
        EraseColor(rebalance, is_left_child, S - {node}, y, s, 0);
      }
    }

    // ---------- searching and walking ----------

    /** `rb_search` */
    method Search(cmp: RbNode -> int) returns (r: RbNode?)
      requires Valid() && Falling(InOrder(tree), cmp)
      ensures r != null ==> r in Nodes(tree) && r in InOrder(tree) && cmp(r) == 0
      ensures r == null ==> NoMatch(InOrder(tree), cmp)
    {
      hide Falling, Linked, Distinct, Order, InOrder, Snap, Plug, Between, Nodes, RedBlack;
      ghost var m := Snap(Nodes(tree));
      ghost var z, t := Here, tree;
      SearchStart(tree, cmp);
      r := root;
      while r != null
        invariant Plug(z, t) == tree && r == Top(t)
        invariant Linked(m, t, Holder(z)) && Distinct(t)
        invariant Between(z, cmp) && InOrder(tree) == Order(z, t)
        decreases t
      {
        SearchReads(m, z, t);
        SnapAt(Nodes(tree), r);
        var c := cmp(r);
        if c < 0 {
          SearchLeft(z, t, cmp);
          z, t, r := GoLeft(z, t.n, t.c, t.r), t.l, r.left;
        } else if c > 0 {
          BetweenRight(z, t, cmp);
          z, t, r := GoRight(z, t.n, t.c, t.l), t.r, r.right;
        } else {
          Found(z, t);
          return;
        }
      }
      SearchEnd(z, cmp);
    }

    static lemma BetweenRight(z: Path, t: Tree, cmp: RbNode -> int)
      requires t.Bin? && Falling(Order(z, t), cmp) && cmp(t.n) > 0 && Between(z, cmp)
      ensures var y := GoRight(z, t.n, t.c, t.l);
        Between(y, cmp) && Order(y, t.r) == Order(z, t) && Plug(y, t.r) == Plug(z, t)
    {
      SearchRight(z, t, cmp);
    }

    static lemma SearchReads(m: Memory, z: Path, t: Tree)
      requires Linked(m, t, Holder(z)) && Distinct(t) && t.Bin?
      ensures t.n in m && m[t.n].left == Top(t.l) && m[t.n].right == Top(t.r)
      ensures Linked(m, t.l, t.n) && Linked(m, t.r, t.n) && Distinct(t.l) && Distinct(t.r)
    {
      LinkedBin(m, t, Holder(z));
    }

    /** `rb_search_first` */
    method SearchFirst(cmp: RbNode -> int) returns (r: RbNode?)
      requires Valid() && Falling(InOrder(tree), cmp)
      ensures r != null ==> First(InOrder(tree), r, cmp)
      ensures r == null ==> NoMatch(InOrder(tree), cmp)
    {
      hide Falling, Linked, Distinct, Order, InOrder, Snap, Plug, Nodes, FirstSoFar, RedBlack;
      ghost var m := Snap(Nodes(tree));
      ghost var z, t := Here, tree;
      FirstStart(tree, cmp);
      var cur := root;
      r := null;
      while cur != null
        invariant Plug(z, t) == tree && cur == Top(t)
        invariant Linked(m, t, Holder(z)) && Distinct(t)
        invariant FirstSoFar(z, r, cmp) && InOrder(tree) == Order(z, t)
        decreases t
      {
        SearchReads(m, z, t);
        SnapAt(Nodes(tree), cur);
        FirstReads(z, t, r, cmp);
        var c := cmp(cur);
        if c <= 0 {
          FirstLeft(z, t, r, cmp);
          if c == 0 {
            r := cur;
          }
          if c != 0 && r != null {
            break;
          }
          z, t, cur := GoLeft(z, t.n, t.c, t.r), t.l, cur.left;
        } else {
          FirstRight(z, t, r, cmp);
          z, t, cur := GoRight(z, t.n, t.c, t.l), t.r, cur.right;
        }
      }
      FirstEnd(z, r, cmp);
    }

    static lemma FirstStart(t: Tree, cmp: RbNode -> int)
      ensures Plug(Here, t) == t && FirstSoFar(Here, null, cmp) && Order(Here, t) == InOrder(t)
    {
      SearchStart(t, cmp);
    }

    /** Once a match is known, no node further left compares as too big. */
    static lemma FirstReads(z: Path, t: Tree, r: RbNode?, cmp: RbNode -> int)
      requires t.Bin? && Falling(Order(z, t), cmp) && FirstSoFar(z, r, cmp)
      ensures r != null ==> cmp(t.n) >= 0
    {
      if r != null { MatchFalls(z, t, cmp); }
    }

    static lemma FirstRight(z: Path, t: Tree, r: RbNode?, cmp: RbNode -> int)
      requires t.Bin? && Falling(Order(z, t), cmp) && cmp(t.n) > 0 && FirstSoFar(z, r, cmp)
      ensures var y := GoRight(z, t.n, t.c, t.l);
        FirstSoFar(y, r, cmp) && Order(y, t.r) == Order(z, t) && Plug(y, t.r) == Plug(z, t)
    {
      SearchRight(z, t, cmp);
    }

    /** Down the left links: the first node of a subtree. */
    method Leftmost(start: RbNode, ghost S: set<RbNode>, ghost base: Path, ghost s: Tree) returns (r: RbNode)
      requires Open(Snap(S), root, base, s) && s.Bin? && start == s.n
      ensures IsFirst(s, r)
    {
      hide Open, Snap, InOrder;
      r := start;
      ghost var z, t := base, s;
      OpenHas(Snap(S), root, z, t);
      SnapAt(S, r);
      FirstStep(t);
      while r.left != null
        invariant r in S && t.Bin? && r == t.n && Open(Snap(S), root, z, t) && r.left == Top(t.l)
        invariant InOrder(s) != [] && InOrder(t) != [] && InOrder(s)[0] == InOrder(t)[0]
        decreases t
      {
        FirstStep(t);
        r, z, t := r.left, GoLeft(z, t.n, t.c, t.r), t.l;
        OpenUp(Snap(S), root, z, t);
        OpenHas(Snap(S), root, z, t);
        SnapAt(S, r);
      }
      FirstStep(t);
    }

    /** Down the right links: the last node of a subtree. */
    method Rightmost(start: RbNode, ghost S: set<RbNode>, ghost base: Path, ghost s: Tree) returns (r: RbNode)
      requires Open(Snap(S), root, base, s) && s.Bin? && start == s.n
      ensures IsLast(s, r)
    {
      hide Open, Snap, InOrder;
      r := start;
      ghost var z, t := base, s;
      OpenHas(Snap(S), root, z, t);
      SnapAt(S, r);
      LastStep(t);
      while r.right != null
        invariant r in S && t.Bin? && r == t.n && Open(Snap(S), root, z, t) && r.right == Top(t.r)
        invariant InOrder(s) != [] && InOrder(t) != [] && InOrder(s)[|InOrder(s)| - 1] == InOrder(t)[|InOrder(t)| - 1]
        decreases t
      {
        LastStep(t);
        r, z, t := r.right, GoRight(z, t.n, t.c, t.l), t.r;
        OpenUp(Snap(S), root, z, t);
        OpenHas(Snap(S), root, z, t);
        SnapAt(S, r);
      }
      LastStep(t);
    }

    lemma OrderOnce()
      requires Valid()
      ensures NoDup(InOrder(tree))
    {
      hide InOrder, Nodes, Snap, RedBlack, Linked, NoDup;
      DistinctInOrder(tree);
    }

    /** `rb_next`: the successor in the order. */
    method Next(node: RbNode) returns (r: RbNode?)
      requires Valid() && node in Nodes(tree)
      ensures node in InOrder(tree)
      ensures forall i :: 0 <= i < |InOrder(tree)| && InOrder(tree)[i] == node ==>
        r == if i + 1 < |InOrder(tree)| then InOrder(tree)[i + 1] else null
    {
      hide NoDup, Valid, Nodes, Snap, Balanced, PathBalanced, Open, Plug, InOrder, Order;
      ghost var S := Nodes(tree);
      OrderOnce();
      ghost var z, t := Locate(Here, tree, node);
      PlugHere(tree);
      ghost var h := Unclose(z, t);
      ghost var i := NeighboursAt(z, t);
      OnlyAt(InOrder(tree), i);
      OpenHas(Snap(S), root, z, t);
      SnapAt(S, node);
      if node.right != null {
        OpenUp(Snap(S), root, RightOf(z, t), t.r);
        r := Leftmost(node.right, S, RightOf(z, t), t.r);
      } else {
        NextAbove(z, t);
        var cur := node;
        r := cur.parent;
        ghost var y, s := z, t;
        while r != null && cur == r.right
          invariant s.Bin? && cur == s.n && r == Holder(y) && Open(Snap(S), root, y, s)
          invariant After(y) == After(z) && cur in S && (r != null ==> r in S)
          decreases Length(y)
        {
          NextClimb(Snap(S), root, y, s);
          SnapAt(S, r);
          OpenUp(Snap(S), root, y, s);
          s, y := Up(y, s), y.up;
          OpenHas(Snap(S), root, y, s);
          SnapAt(S, r);
          cur, r := r, r.parent;
        }
        if r != null {
          NextClimb(Snap(S), root, y, s);
          SnapAt(S, r);
        }
      }
    }

    /** `rb_prev`: the predecessor in the order. */
    method Prev(node: RbNode) returns (r: RbNode?)
      requires Valid() && node in Nodes(tree)
      ensures node in InOrder(tree)
      ensures forall i :: 0 <= i < |InOrder(tree)| && InOrder(tree)[i] == node ==>
        r == if i > 0 then InOrder(tree)[i - 1] else null
    {
      hide NoDup, Valid, Nodes, Snap, Balanced, PathBalanced, Open, Plug, InOrder, Order;
      ghost var S := Nodes(tree);
      OrderOnce();
      ghost var z, t := Locate(Here, tree, node);
      PlugHere(tree);
      ghost var h := Unclose(z, t);
      ghost var i := NeighboursAt(z, t);
      OnlyAt(InOrder(tree), i);
      OpenHas(Snap(S), root, z, t);
      SnapAt(S, node);
      if node.left != null {
        OpenUp(Snap(S), root, LeftOf(z, t), t.l);
        r := Rightmost(node.left, S, LeftOf(z, t), t.l);
      } else {
        PrevAbove(z, t);
        var cur := node;
        r := cur.parent;
        ghost var y, s := z, t;
        while r != null && cur == r.left
          invariant s.Bin? && cur == s.n && r == Holder(y) && Open(Snap(S), root, y, s)
          invariant Before(y) == Before(z) && cur in S && (r != null ==> r in S)
          decreases Length(y)
        {
          PrevClimb(Snap(S), root, y, s);
          SnapAt(S, r);
          OpenUp(Snap(S), root, y, s);
          s, y := Up(y, s), y.up;
          OpenHas(Snap(S), root, y, s);
          SnapAt(S, r);
          cur, r := r, r.parent;
        }
        if r != null {
          PrevClimb(Snap(S), root, y, s);
          SnapAt(S, r);
        }
      }
    }

    /** `rb_replace_node`: the new node stands where the old one stood. */
    method ReplaceNodeInTree(x: RbNode, s: RbNode) returns (ghost i: nat)
      requires Valid() && x in Nodes(tree) && s !in Nodes(tree)
      modifies this, Nodes(tree), s
      ensures Valid() && Nodes(tree) == old(Nodes(tree)) - {x} + {s}
      ensures i < |old(InOrder(tree))| && old(InOrder(tree))[i] == x
      ensures InOrder(tree) == old(InOrder(tree))[i := s]
      ensures tree == Renamed(old(tree), x, s)
    {
      hide Valid, Nodes, PathNodes, InOrder, Order, Snap, Balanced, PathBalanced, Open, Plug, Without, Renamed;
      ghost var S, o := Nodes(tree), InOrder(tree);
      ghost var z, t := Locate(Here, tree, x);
      PlugHere(tree);
      ghost var h := Unclose(z, t);
      OpenApart(Snap(S), root, z, t);
      i := ReplacedAt(z, t, s);
      ReplacedNodes(z, t, s, h);
      RenamedAt(z, t, s);
      ghost var S2 := S + {s};
      AddNode(S, s, z, t);
      Replace(x, s, S2, z, t);
      WithoutFrom(S2, x, z, t.(n := s));
      CloseWithout(S2, x, z, t.(n := s), h);
    }

    lemma AddNode(S: set<RbNode>, s: RbNode, z: Path, t: Tree)
      requires Open(Snap(S), root, z, t) && S == PathNodes(z) + Nodes(t)
      ensures Open(Snap(S + {s}), root, z, t)
    {
      assert Same(Snap(S), Snap(S + {s}), PathNodes(z) + Nodes(t));
      OpenAgree(Snap(S), Snap(S + {s}), root, z, t);
    }
  }
}
