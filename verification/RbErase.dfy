/** The shapes that `__rb_erase_color` produces. */
module RbErase {
  import opened RbShape
  import opened RbMoves

  /** The double-black state: the subtree `t` is one black node too short. */
  ghost predicate Short(m: Memory, root: RbNode?, z: Path, t: Tree, h: int) {
    && Open(m, root, z, t)
    && m.Keys == PathNodes(z) + Nodes(t)
    && PathBalanced(z, h + 1) && Balanced(t, h) && !RedTop(t)
  }

  lemma AroundShort(z: Path, t: Tree, h: int)
    requires PathBalanced(z, h + 1) && Balanced(t, h) && !z.Here?
    ensures z.sib.Bin?
    ensures z.sib.c.Black? ==> Balanced(z.sib.l, h) && Balanced(z.sib.r, h)
    ensures z.sib.c.Red? ==> z.c.Black? && Balanced(z.sib.l, h + 1) && Balanced(z.sib.r, h + 1)
                             && !RedTop(z.sib.l) && !RedTop(z.sib.r)
    ensures PathBalanced(z.up, if z.c.Black? then h + 2 else h + 1)
    ensures z.c.Red? ==> RedAllowed(z.up)
  {
    BalancedHeight(t, h);
    BalancedHeight(z.sib, h + 1);
  }

  /** Everything that is linked around a subtree and its sibling. */
  lemma Beside(m: Memory, root: RbNode?, z: Path, t: Tree)
    requires Open(m, root, z, t) && !z.Here? && z.sib.Bin?
    ensures z.n in m && m[z.n] == HolderFields(z, Top(t))
    ensures z.sib.n in m && m[z.sib.n] == Fields(Top(z.sib.l), Top(z.sib.r), z.n, z.sib.c)
    ensures Linked(m, t, z.n) && Linked(m, z.sib.l, z.sib.n) && Linked(m, z.sib.r, z.sib.n)
    ensures Distinct(z.sib) && z.n !in PathNodes(z.up)
    ensures PathLinked(m, z.up, z.n) && root == Outer(z.up, z.n)
    ensures Top(t) != z.sib.n && z.sib.n != z.n
  {
    PathLinkedStep(m, z, Top(t));
    LinkedBin(m, z.sib, z.n);
    assert z.sib.n == Top(z.sib);
  }

  /** What a round of the fix-up reads before it decides on its case. */
  lemma ShortReads(m: Memory, root: RbNode?, z: Path, t: Tree, h: int)
    requires Short(m, root, z, t, h) && !z.Here?
    ensures z.sib.Bin? && z.n in m && m[z.n].parent == Holder(z.up) && m[z.n].color == z.c
    ensures z.GoLeft? <==> m[z.n].left == Top(t)
    ensures z.GoLeft? ==> m[z.n].right == z.sib.n
    ensures z.GoRight? ==> m[z.n].left == z.sib.n
    ensures z.sib.n in m && m[z.sib.n] == Fields(Top(z.sib.l), Top(z.sib.r), z.n, z.sib.c)
    ensures z.sib.l.Bin? ==> z.sib.l.n in m && m[z.sib.l.n].color == z.sib.l.c
    ensures z.sib.r.Bin? ==> z.sib.r.n in m && m[z.sib.r.n].color == z.sib.r.c
  {
    AroundShort(z, t, h);
    Beside(m, root, z, t);
    if z.sib.l.Bin? { LinkedBin(m, z.sib.l, z.sib.n); }
    if z.sib.r.Bin? { LinkedBin(m, z.sib.r, z.sib.n); }
  }

  // ---------- Case-1: a red nephew ----------

  lemma {:induction false} EraseOrder1A(z: Path, t: Tree, x: Color, y: Color)
    requires z.GoLeft? && z.sib.Bin?
    ensures Order(z.up, Bin(Bin(t, z.n, x, z.sib.l), z.sib.n, y, z.sib.r)) == Order(z, t)
  {
    OrderUp(z, t);
    RotateOrder(t, z.n, z.sib.l, z.sib.n, z.sib.r, x, y, z.c, z.sib.c);
  }

  lemma Erase1A(m: Memory, root: RbNode?, z: Path, t: Tree, h: int) returns (s: Tree)
    requires Short(m, root, z, t, h) && z.GoLeft? && z.sib.Bin? && RedTop(z.sib.r)
    ensures s == Bin(Bin(t, z.n, z.c, z.sib.l), z.sib.n, z.sib.c, z.sib.r)
    ensures Rotatable(m, root, z.up, z.n, s, z.n, z.sib.n, z.sib.r.n, z.sib.r.n)
  {
    s := Bin(Bin(t, z.n, z.c, z.sib.l), z.sib.n, z.sib.c, z.sib.r);
    Beside(m, root, z, t);
    LinkedBin(m, z.sib.r, z.sib.n);
    EraseOrder1A(z, t, z.c, z.sib.c);
    ReshapeOpen(m, root, z, t, z.up, s);
  }

  lemma {:induction false} EraseOrder1B(z: Path, t: Tree, x: Color, y: Color, v: Color)
    requires z.GoLeft? && z.sib.Bin? && z.sib.l.Bin?
    ensures Order(z.up, Bin(Bin(t, z.n, x, z.sib.l.l), z.sib.l.n, y, Bin(z.sib.l.r, z.sib.n, v, z.sib.r)))
         == Order(z, t)
  {
    OrderUp(z, t);
    DoubleOrderMirror(t, z.n, z.sib.l, z.sib.n, z.sib.r, z.sib.c, z.c, x, y, v);
  }

  lemma Erase1B(m: Memory, root: RbNode?, z: Path, t: Tree, h: int) returns (s: Tree)
    requires Short(m, root, z, t, h) && z.GoLeft? && z.sib.Bin? && RedTop(z.sib.l)
    ensures s == Bin(Bin(t, z.n, z.c, z.sib.l.l), z.sib.l.n, Red, Bin(z.sib.l.r, z.sib.n, z.sib.c, z.sib.r))
    ensures Rotatable(m, root, z.up, z.n, s, z.n, z.sib.l.n, z.sib.l.n, z.sib.n)
  {
    s := Bin(Bin(t, z.n, z.c, z.sib.l.l), z.sib.l.n, Red, Bin(z.sib.l.r, z.sib.n, z.sib.c, z.sib.r));
    Beside(m, root, z, t);
    LinkedBin(m, z.sib.l, z.sib.n);
    EraseOrder1B(z, t, z.c, Red, z.sib.c);
    ReshapeOpen(m, root, z, t, z.up, s);
  }

  lemma {:induction false} EraseOrder1AMirror(z: Path, t: Tree, x: Color, y: Color)
    requires z.GoRight? && z.sib.Bin?
    ensures Order(z.up, Bin(z.sib.l, z.sib.n, x, Bin(z.sib.r, z.n, y, t))) == Order(z, t)
  {
    OrderUp(z, t);
    RotateOrder(z.sib.l, z.sib.n, z.sib.r, z.n, t, z.sib.c, z.c, x, y);
  }

  lemma Erase1AMirror(m: Memory, root: RbNode?, z: Path, t: Tree, h: int) returns (s: Tree)
    requires Short(m, root, z, t, h) && z.GoRight? && z.sib.Bin? && RedTop(z.sib.l)
    ensures s == Bin(z.sib.l, z.sib.n, z.sib.c, Bin(z.sib.r, z.n, z.c, t))
    ensures Rotatable(m, root, z.up, z.n, s, z.sib.l.n, z.sib.l.n, z.sib.n, z.n)
  {
    s := Bin(z.sib.l, z.sib.n, z.sib.c, Bin(z.sib.r, z.n, z.c, t));
    Beside(m, root, z, t);
    LinkedBin(m, z.sib.l, z.sib.n);
    EraseOrder1AMirror(z, t, z.sib.c, z.c);
    ReshapeOpen(m, root, z, t, z.up, s);
  }

  lemma {:induction false} EraseOrder1BMirror(z: Path, t: Tree, x: Color, y: Color, v: Color)
    requires z.GoRight? && z.sib.Bin? && z.sib.r.Bin?
    ensures Order(z.up, Bin(Bin(z.sib.l, z.sib.n, x, z.sib.r.l), z.sib.r.n, y, Bin(z.sib.r.r, z.n, v, t)))
         == Order(z, t)
  {
    OrderUp(z, t);
    DoubleOrder(z.sib.l, z.sib.n, z.sib.r, z.n, t, z.sib.c, z.c, x, y, v);
  }

  lemma Erase1BMirror(m: Memory, root: RbNode?, z: Path, t: Tree, h: int) returns (s: Tree)
    requires Short(m, root, z, t, h) && z.GoRight? && z.sib.Bin? && RedTop(z.sib.r)
    ensures s == Bin(Bin(z.sib.l, z.sib.n, z.sib.c, z.sib.r.l), z.sib.r.n, Red, Bin(z.sib.r.r, z.n, z.c, t))
    ensures Rotatable(m, root, z.up, z.n, s, z.sib.n, z.sib.r.n, z.sib.r.n, z.n)
  {
    s := Bin(Bin(z.sib.l, z.sib.n, z.sib.c, z.sib.r.l), z.sib.r.n, Red, Bin(z.sib.r.r, z.n, z.c, t));
    Beside(m, root, z, t);
    LinkedBin(m, z.sib.r, z.sib.n);
    EraseOrder1BMirror(z, t, z.sib.c, Red, z.c);
    ReshapeOpen(m, root, z, t, z.up, s);
  }

  // ---------- Case-4: a red sibling ----------

  ghost function WithInner(f: Fields, left: bool, x: RbNode?): Fields {
    if left then f.(right := x) else f.(left := x)
  }

  /** The parent takes the sibling's near subtree. */
  ghost function TakeNear(m: Memory, p: RbNode, near: RbNode?, left: bool): (w: Memory)
    requires p in m && Has(m, near)
    ensures w.Keys == m.Keys
  {
    SetParent(m[p := WithInner(m[p], left, near)], near, p)
  }

  /** The parent hangs under the sibling. */
  ghost function HangUnder(m: Memory, p: RbNode, s: RbNode, left: bool): (w: Memory)
    requires p in m && s in m
    ensures w.Keys == m.Keys
  {
    SetParent(m[s := WithInner(m[s], !left, p)], p, s)
  }

  /** Case-4: the sibling goes above the parent, which takes the sibling's near subtree. */
  ghost function Swing(m: Memory, p: RbNode, s: RbNode, left: bool): (w: Memory)
    requires p in m && s in m && Has(m, m[p].parent) && Has(m, m[s].left) && Has(m, m[s].right)
    ensures w.Keys == m.Keys
  {
    var near := if left then m[s].left else m[s].right;
    HangUnder(TakeNear(ChangeChild(m, m[p].parent, p, s), p, near, left), p, s, left)
  }

  /** The subtree that Case-4 leaves, and its parts. */
  ghost function SwungUnder(z: Path, t: Tree): Tree
    requires !z.Here? && z.sib.Bin?
  {
    if z.GoLeft? then Bin(t, z.n, z.c, z.sib.l) else Bin(z.sib.r, z.n, z.c, t)
  }

  ghost function Swung(z: Path, t: Tree): Tree
    requires !z.Here? && z.sib.Bin?
  {
    if z.GoLeft? then Bin(SwungUnder(z, t), z.sib.n, z.sib.c, z.sib.r)
    else Bin(z.sib.l, z.sib.n, z.sib.c, SwungUnder(z, t))
  }

  ghost function Near(z: Path): Tree
    requires !z.Here? && z.sib.Bin?
  {
    if z.GoLeft? then z.sib.l else z.sib.r
  }

  ghost function Far(z: Path): Tree
    requires !z.Here? && z.sib.Bin?
  {
    if z.GoLeft? then z.sib.r else z.sib.l
  }

  /** No node of the parts of Case-4 occurs in another part. */
  ghost predicate Parts(p: RbNode, s: RbNode, t: Tree, near: Tree, far: Tree, up: Path) {
    && p != s && Distinct(t) && Distinct(near) && Distinct(far) && PathDistinct(up)
    && p !in Nodes(t) && p !in Nodes(near) && p !in Nodes(far) && p !in PathNodes(up)
    && s !in Nodes(t) && s !in Nodes(near) && s !in Nodes(far) && s !in PathNodes(up)
    && Nodes(t) !! Nodes(near) && Nodes(t) !! Nodes(far) && Nodes(near) !! Nodes(far)
    && Nodes(t) !! PathNodes(up) && Nodes(near) !! PathNodes(up) && Nodes(far) !! PathNodes(up)
  }

  lemma PartsOfPath(z: Path, t: Tree)
    requires Apart(z, t) && !z.Here? && z.sib.Bin?
    ensures Parts(z.n, z.sib.n, t, Near(z), Far(z), z.up)
  {
    assert z.sib.n == Top(z.sib);
  }

  lemma SwungApart(m: Memory, root: RbNode?, z: Path, t: Tree)
    requires Open(m, root, z, t) && !z.Here? && z.sib.Bin? && m.Keys == PathNodes(z) + Nodes(t)
    ensures Apart(z.up, Swung(z, t)) && m.Keys == PathNodes(z.up) + Nodes(Swung(z, t))
    ensures Order(z.up, Swung(z, t)) == Order(z, t)
  {
    if z.GoLeft? {
      EraseOrder1A(z, t, z.c, z.sib.c);
    } else {
      EraseOrder1AMirror(z, t, z.sib.c, z.c);
    }
    ReshapeOpen(m, root, z, t, z.up, Swung(z, t));
  }

  /** Case-4, first step: the sibling takes the parent's place under the grandparent. */
  lemma SwingStep1(m: Memory, root: RbNode?, up: Path, p: RbNode, s: RbNode, t: Tree, near: Tree, far: Tree)
    requires Parts(p, s, t, near, far, up) && p in m && s in m
    requires PathLinked(m, up, p) && root == Outer(up, p)
    requires Linked(m, t, p) && Linked(m, near, s) && Linked(m, far, s)
    ensures Has(m, Holder(up)) && Has(m, Top(near))
    ensures var m1 := ChangeChild(m, Holder(up), p, s);
      && Linked(m1, t, p) && Linked(m1, near, s) && Linked(m1, far, s) && PathLinked(m1, up, s)
      && m1[p] == m[p] && m1[s] == m[s].(parent := Holder(up))
      && NewRoot(root, Holder(up), s) == Outer(up, s)
  {
    ChangeChildLinks(m, root, up, p, s);
    var m1 := ChangeChild(m, Holder(up), p, s);
    var changed := PathNodes(up) + {s};
    hide Linked, PathLinked, ChangeChild, Distinct, PathDistinct, Nodes, PathNodes, Outer;
    Elsewhere(m, m1, changed, t, p);
    Elsewhere(m, m1, changed, near, s);
    Elsewhere(m, m1, changed, far, s);
  }

  /** Case-4, second step: the parent takes the sibling's near subtree. */
  lemma SwingStep2(m1: Memory, up: Path, p: RbNode, s: RbNode, t: Tree, near: Tree, far: Tree, left: bool)
    requires Parts(p, s, t, near, far, up) && p in m1 && s in m1
    requires Linked(m1, t, p) && Linked(m1, near, s) && Linked(m1, far, s) && PathLinked(m1, up, s)
    ensures Has(m1, Top(near))
    ensures var m3 := TakeNear(m1, p, Top(near), left);
      && Linked(m3, t, p) && Linked(m3, near, p) && Linked(m3, far, s) && PathLinked(m3, up, s)
      && m3[p] == WithInner(m1[p], left, Top(near)) && m3[s] == m1[s]
  {
    AdoptOne(m1, p, WithInner(m1[p], left, Top(near)), near, s);
    var m3 := TakeNear(m1, p, Top(near), left);
    var changed := Nodes(near) + {p};
    hide TakeNear, Linked, PathLinked, SetParent, Distinct, PathDistinct, Nodes, PathNodes;
    Elsewhere(m1, m3, changed, t, p);
    Elsewhere(m1, m3, changed, far, s);
    PathElsewhere(m1, m3, changed, up, s);
  }

  /** Case-4, last step: the parent hangs under the sibling. */
  lemma SwingStep3(m3: Memory, up: Path, p: RbNode, s: RbNode, u: Tree, far: Tree, left: bool)
    requires u.Bin? && u.n == p && Distinct(u) && s in m3 && s !in Nodes(u) && s !in Nodes(far)
    requires Nodes(u) !! Nodes(far) && Nodes(u) !! PathNodes(up) && s !in PathNodes(up)
    requires Linked(m3, u, Holder(up)) && Linked(m3, far, s) && PathLinked(m3, up, s)
    ensures p in m3
    ensures var w := HangUnder(m3, p, s, left);
      && Linked(w, u, s) && Linked(w, far, s) && PathLinked(w, up, s) && w[s] == WithInner(m3[s], !left, p)
  {
    AdoptOne(m3, s, WithInner(m3[s], !left, p), u, Holder(up));
    var w := HangUnder(m3, p, s, left);
    var changed := Nodes(u) + {s};
    hide HangUnder, Linked, PathLinked, SetParent, Distinct, Nodes, PathNodes;
    Elsewhere(m3, w, changed, far, s);
    PathElsewhere(m3, w, changed, up, s);
  }

  lemma UnderApart(z: Path, t: Tree)
    requires Apart(z, t) && !z.Here? && z.sib.Bin?
    ensures var u, far, s := SwungUnder(z, t), Far(z), z.sib.n;
      && u.Bin? && u.n == z.n && Distinct(u) && s !in Nodes(u) && s !in Nodes(far)
      && Nodes(u) !! Nodes(far) && Nodes(u) !! PathNodes(z.up) && s !in PathNodes(z.up)
  {
    PartsOfPath(z, t);
    assert Nodes(SwungUnder(z, t)) == Nodes(t) + {z.n} + Nodes(Near(z));
  }

  /** Case-4 in memory. */
  lemma SwingLinks(m: Memory, root: RbNode?, z: Path, t: Tree)
    requires Open(m, root, z, t) && !z.Here? && z.sib.Bin?
    ensures z.n in m && z.sib.n in m && z.n != z.sib.n && Has(m, m[z.n].parent)
    ensures Has(m, m[z.sib.n].left) && Has(m, m[z.sib.n].right) && m[z.n].parent == Holder(z.up)
    ensures var w := Swing(m, z.n, z.sib.n, z.GoLeft?);
      && Linked(w, SwungUnder(z, t), z.sib.n) && Linked(w, Far(z), z.sib.n) && PathLinked(w, z.up, z.sib.n)
      && w[z.sib.n] == (if z.GoLeft? then Fields(z.n, Top(z.sib.r), Holder(z.up), z.sib.c)
                        else Fields(Top(z.sib.l), z.n, Holder(z.up), z.sib.c))
    ensures NewRoot(root, Holder(z.up), z.sib.n) == Outer(z.up, z.sib.n)
  {
    hide Linked, PathLinked, ChangeChild, TakeNear, HangUnder, Distinct, PathDistinct, Nodes, PathNodes, Apart, Parts;
    var p, s, near, far := z.n, z.sib.n, Near(z), Far(z);
    Beside(m, root, z, t);
    PartsOfPath(z, t);
    UnderApart(z, t);
    var left := z.GoLeft?;
    TopIn(m, far, s);
    SwingStep1(m, root, z.up, p, s, t, near, far);
    var m1 := ChangeChild(m, Holder(z.up), p, s);
    SwingStep2(m1, z.up, p, s, t, near, far, left);
    var m3 := TakeNear(m1, p, Top(near), left);
    var u := SwungUnder(z, t);
    LinkedBin(m3, u, Holder(z.up));
    SwingStep3(m3, z.up, p, s, u, far, left);
    assert HangUnder(m3, p, s, left) == Swing(m, p, s, left);
  }

  lemma SwingOpen(m: Memory, root: RbNode?, z: Path, t: Tree)
    requires Open(m, root, z, t) && !z.Here? && z.sib.Bin? && m.Keys == PathNodes(z) + Nodes(t)
    ensures z.n in m && z.sib.n in m && z.n != z.sib.n && Has(m, m[z.n].parent)
    ensures Has(m, m[z.sib.n].left) && Has(m, m[z.sib.n].right) && m[z.n].parent == Holder(z.up)
    ensures Open(Swing(m, z.n, z.sib.n, z.GoLeft?), NewRoot(root, Holder(z.up), z.sib.n), z.up, Swung(z, t))
    ensures Order(z.up, Swung(z, t)) == Order(z, t)
    ensures m.Keys == PathNodes(z.up) + Nodes(Swung(z, t))
  {
    SwungApart(m, root, z, t);
    SwingLinks(m, root, z, t);
    hide Swing, Linked, PathLinked, Nodes, PathNodes;
    LinkedBin(Swing(m, z.n, z.sib.n, z.GoLeft?), Swung(z, t), Holder(z.up));
  }

  ghost function Rank(z: Path): nat {
    if z.Here? then 0 else if z.c.Red? then 1 else 2 + Length(z)
  }

  // ---------- what the cases leave is balanced ----------

  ghost function Done1A(z: Path, t: Tree): Tree
    requires z.GoLeft? && z.sib.Bin? && z.sib.r.Bin?
  {
    Bin(Bin(t, z.n, Black, z.sib.l), z.sib.n, z.c, z.sib.r.(c := Black))
  }

  ghost function Done1B(z: Path, t: Tree): Tree
    requires z.GoLeft? && z.sib.Bin? && z.sib.l.Bin?
  {
    Bin(Bin(t, z.n, Black, z.sib.l.l), z.sib.l.n, z.c, Bin(z.sib.l.r, z.sib.n, Black, z.sib.r))
  }

  ghost function Done1AMirror(z: Path, t: Tree): Tree
    requires z.GoRight? && z.sib.Bin? && z.sib.l.Bin?
  {
    Bin(z.sib.l.(c := Black), z.sib.n, z.c, Bin(z.sib.r, z.n, Black, t))
  }

  ghost function Done1BMirror(z: Path, t: Tree): Tree
    requires z.GoRight? && z.sib.Bin? && z.sib.r.Bin?
  {
    Bin(Bin(z.sib.l, z.sib.n, Black, z.sib.r.l), z.sib.r.n, z.c, Bin(z.sib.r.r, z.n, Black, t))
  }

  lemma Done1AOrder(z: Path, t: Tree)
    requires z.GoLeft? && z.sib.Bin? && z.sib.r.Bin?
    ensures Order(z.up, Done1A(z, t)) == Order(z, t)
  {
    EraseOrder1A(z, t, Black, z.c);
    assert InOrder(z.sib.r.(c := Black)) == InOrder(z.sib.r);
  }

  lemma Done1AMirrorOrder(z: Path, t: Tree)
    requires z.GoRight? && z.sib.Bin? && z.sib.l.Bin?
    ensures Order(z.up, Done1AMirror(z, t)) == Order(z, t)
  {
    EraseOrder1AMirror(z, t, z.c, Black);
    assert InOrder(z.sib.l.(c := Black)) == InOrder(z.sib.l);
  }

  /** The height that the place above the holder expects. */
  ghost function Above(z: Path, h: int): int
    requires !z.Here?
  {
    if z.c.Black? then h + 2 else h + 1
  }

  /** A red nephew under a black sibling makes up for the missing black node. */
  lemma Case1Balanced(z: Path, t: Tree, h: int)
    requires PathBalanced(z, h + 1) && Balanced(t, h) && !z.Here? && z.sib.Bin? && z.sib.c.Black?
    ensures z.GoLeft? && RedTop(z.sib.r) ==> Balanced(Done1A(z, t), Above(z, h))
    ensures z.GoLeft? && RedTop(z.sib.l) && !RedTop(z.sib.r) ==> Balanced(Done1B(z, t), Above(z, h))
    ensures z.GoRight? && RedTop(z.sib.l) ==> Balanced(Done1AMirror(z, t), Above(z, h))
    ensures z.GoRight? && RedTop(z.sib.r) && !RedTop(z.sib.l) ==> Balanced(Done1BMirror(z, t), Above(z, h))
    ensures PathBalanced(z.up, Above(z, h)) && (z.c.Red? ==> RedAllowed(z.up))
  {
    AroundShort(z, t, h);
  }

  /** Case-2 and Case-3: the sibling turns red and the holder black. */
  ghost function Lowered(z: Path, t: Tree): Tree
    requires !z.Here? && z.sib.Bin?
  {
    if z.GoLeft? then Bin(t, z.n, Black, z.sib.(c := Red)) else Bin(z.sib.(c := Red), z.n, Black, t)
  }

  lemma LoweredBalanced(z: Path, t: Tree, h: int)
    requires PathBalanced(z, h + 1) && Balanced(t, h) && !z.Here? && z.sib.Bin? && z.sib.c.Black?
    requires !RedTop(z.sib.l) && !RedTop(z.sib.r)
    ensures Balanced(Lowered(z, t), h + 1)
    ensures z.c.Black? ==> PathBalanced(z.up, h + 2) && Rank(z.up) < Rank(z)
    ensures z.c.Red? ==> PathBalanced(z.up, h + 1)
  {
    AroundShort(z, t, h);
  }

  lemma LoweredOrder(z: Path, t: Tree)
    requires !z.Here? && z.sib.Bin?
    ensures Order(z.up, Lowered(z, t)) == Order(z, t)
    ensures PathNodes(z.up) + Nodes(Lowered(z, t)) == PathNodes(z) + Nodes(t)
  {
    OrderUp(z, t);
    assert InOrder(Lowered(z, t)) == InOrder(Up(z, t));
    Reshape(z, t, z.up, Lowered(z, t));
  }

  /** Case-4 goes on with the same subtree, now under a red holder with a black sibling. */
  ghost function SwungPath(z: Path): Path
    requires !z.Here? && z.sib.Bin?
  {
    if z.GoLeft? then GoLeft(GoLeft(z.up, z.sib.n, Black, z.sib.r), z.n, Red, z.sib.l)
    else GoRight(GoRight(z.up, z.sib.n, Black, z.sib.l), z.n, Red, z.sib.r)
  }

  lemma SwungBalanced(z: Path, t: Tree, h: int)
    requires PathBalanced(z, h + 1) && Balanced(t, h) && !z.Here? && z.sib.Bin? && z.sib.c.Red?
    ensures PathBalanced(SwungPath(z), h + 1) && Rank(SwungPath(z)) < Rank(z)
  {
    AroundShort(z, t, h);
    assert PathBalanced(SwungPath(z).up, h + 1);
  }

  lemma SwungPathNodes(z: Path, t: Tree)
    requires !z.Here? && z.sib.Bin?
    ensures PathNodes(SwungPath(z)) + Nodes(t) == PathNodes(z.up) + Nodes(Swung(z, t))
  {
  }

  lemma SwungPathOpen(m: Memory, root: RbNode?, z: Path, t: Tree)
    requires !z.Here? && z.sib.Bin?
    requires var s := Repaint(Swung(z, t), z.sib.n, Black); Open(m, root, z.up, Repaint(s, z.n, Red))
    requires z.n != z.sib.n
    requires z.GoRight? ==> Top(z.sib.l) != z.n
    ensures Open(m, root, SwungPath(z), t)
    ensures Order(SwungPath(z), t) == Order(z.up, Repaint(Repaint(Swung(z, t), z.sib.n, Black), z.n, Red))
    ensures PathNodes(SwungPath(z)) + Nodes(t) == PathNodes(z.up) + Nodes(Swung(z, t))
  {
    hide Open, Order, Nodes, PathNodes;
    var y := SwungPath(z);
    var u := Up(y, t);
    SwungPathNodes(z, t);
    OpenUp(m, root, y.up, u);
    OpenUp(m, root, y, t);
    OrderUp(y, t);
    OrderUp(y.up, u);
    assert Up(y.up, u) == Repaint(Repaint(Swung(z, t), z.sib.n, Black), z.n, Red);
  }

  /** What the rotations of Case-1 read. */
  lemma NephewReads(m: Memory, root: RbNode?, z: Path, t: Tree, h: int)
    requires Short(m, root, z, t, h) && !z.Here? && z.sib.Bin?
    ensures z.n in m && z.sib.n in m && z.n != z.sib.n && Top(t) != z.sib.n
    ensures m[z.sib.n] == Fields(Top(z.sib.l), Top(z.sib.r), z.n, z.sib.c)
    ensures z.sib.l.Bin? ==>
      && z.sib.l.n in m && z.sib.l.n != z.n && z.sib.l.n != z.sib.n
      && m[z.sib.l.n] == Fields(Top(z.sib.l.l), Top(z.sib.l.r), z.sib.n, z.sib.l.c)
    ensures z.sib.r.Bin? ==>
      && z.sib.r.n in m && z.sib.r.n != z.n && z.sib.r.n != z.sib.n
      && m[z.sib.r.n] == Fields(Top(z.sib.r.l), Top(z.sib.r.r), z.sib.n, z.sib.r.c)
  {
    Beside(m, root, z, t);
    if z.sib.l.Bin? { LinkedBin(m, z.sib.l, z.sib.n); assert z.sib.l.n == Top(z.sib.l); }
    if z.sib.r.Bin? { LinkedBin(m, z.sib.r, z.sib.n); assert z.sib.r.n == Top(z.sib.r); }
  }

  /** The colours that a rotation leaves in memory. */
  lemma RotatedReads(m: Memory, root: RbNode?, z: Path, s: Tree)
    requires Open(m, root, z, s) && s.Bin? && s.l.Bin? && s.r.Bin?
    ensures s.l.n in m && m[s.l.n].color == s.l.c && s.r.n in m && m[s.r.n].color == s.r.c
    ensures s.n in m && s.l.n != s.n && s.r.n != s.n && s.l.n != s.r.n
  {
    LinkedBin(m, s, Holder(z));
    LinkedBin(m, s.l, s.n);
    LinkedBin(m, s.r, s.n);
    assert s.l.n == Top(s.l) && s.r.n == Top(s.r);
  }

  /** Case-4 as a whole: the subtree stays short, but the round after it ends the fix-up. */
  lemma Erase4(m: Memory, root: RbNode?, z: Path, t: Tree, h: int)
    requires Short(m, root, z, t, h) && !z.Here? && z.sib.Bin? && z.sib.c.Red?
    ensures z.n in m && z.sib.n in m && Has(m, m[z.n].parent)
    ensures Has(m, m[z.sib.n].left) && Has(m, m[z.sib.n].right) && m[z.n].parent == Holder(z.up)
    ensures m[z.sib.n] == Fields(Top(z.sib.l), Top(z.sib.r), z.n, z.sib.c)
    ensures Short(Paint(Paint(Swing(m, z.n, z.sib.n, z.GoLeft?), z.sib.n, Black), z.n, Red),
                  NewRoot(root, Holder(z.up), z.sib.n), SwungPath(z), t, h)
    ensures Order(SwungPath(z), t) == Order(z, t) && Rank(SwungPath(z)) < Rank(z)
  {
    hide Open, Paint, Balanced, PathBalanced, Nodes, PathNodes, Swing, Order, Rank, Outer;
    SwungBalanced(z, t, h);
    NephewReads(m, root, z, t, h);
    SwingOpen(m, root, z, t);
    var w, r := Swing(m, z.n, z.sib.n, z.GoLeft?), NewRoot(root, Holder(z.up), z.sib.n);
    OpenPaint(w, r, z.up, Swung(z, t), z.sib.n, Black);
    OpenPaint(Paint(w, z.sib.n, Black), r, z.up, Repaint(Swung(z, t), z.sib.n, Black), z.n, Red);
    SwungPathOpen(Paint(Paint(w, z.sib.n, Black), z.n, Red), r, z, t);
    PaintOrder(z.up, Swung(z, t), z.sib.n, Black);
    PaintOrder(z.up, Repaint(Swung(z, t), z.sib.n, Black), z.n, Red);
  }

  lemma PaintOrder(z: Path, s: Tree, n: RbNode, c: Color)
    requires s.Bin?
    ensures Order(z, Repaint(s, n, c)) == Order(z, s)
  {
    assert InOrder(Repaint(s, n, c)) == InOrder(s);
  }

  lemma ShortHolder(m: Memory, root: RbNode?, z: Path, t: Tree, h: int)
    requires Short(m, root, z, t, h)
    ensures t.Bin? ==> t.n in m && m[t.n].parent == Holder(z)
    ensures !z.Here? ==> z.n in m && (if z.GoLeft? then m[z.n].left == Top(t) else m[z.n].right == Top(t))
  {
    OpenHas(m, root, z, t);
  }
}
