/** The link-rewriting steps of the red-black tree, on memory values: what each step
does to a linked tree seen as a subtree in its surroundings. */
module RbMoves {
  import opened RbShape

  /** The state of a fix-up loop: a linked subtree in linked surroundings. */
  ghost predicate Open(m: Memory, root: RbNode?, z: Path, t: Tree) {
    && Apart(z, t)
    && Linked(m, t, Holder(z))
    && PathLinked(m, z, Top(t))
    && root == Outer(z, Top(t))
  }

  lemma OpenApart(m: Memory, root: RbNode?, z: Path, t: Tree)
    requires Open(m, root, z, t)
    ensures Apart(z, t)
  {
  }

  lemma OpenUp(m: Memory, root: RbNode?, z: Path, t: Tree)
    requires !z.Here?
    ensures Open(m, root, z, t) <==> Open(m, root, z.up, Up(z, t))
  {
    var s := Up(z, t);
    assert Apart(z, t) <==> Apart(z.up, s);
    if Apart(z, t) {
      LinkedBin(m, s, Holder(z.up));
      PathLinkedStep(m, z, Top(t));
    }
  }

  lemma OpenHas(m: Memory, root: RbNode?, z: Path, t: Tree)
    requires Open(m, root, z, t)
    ensures Nodes(t) <= m.Keys && PathNodes(z) <= m.Keys
    ensures t.Bin? ==> t.n in m && m[t.n] == Fields(Top(t.l), Top(t.r), Holder(z), t.c)
    ensures !z.Here? ==> z.n in m && m[z.n] == HolderFields(z, Top(t))
  {
    TopIn(m, t, Holder(z));
    forall x <- PathNodes(z) ensures x in m {
      assert x in PathLayout(z, Top(t));
    }
    if t.Bin? { LinkedBin(m, t, Holder(z)); }
    if !z.Here? { PathLinkedStep(m, z, Top(t)); }
  }

  /** Everything that is linked around a node and its grandparent. */
  lemma TwoUp(m: Memory, root: RbNode?, z: Path, t: Tree)
    requires Open(m, root, z, t) && t.Bin? && !z.Here? && !z.up.Here?
    ensures t.n in m && m[t.n] == Fields(Top(t.l), Top(t.r), z.n, t.c)
    ensures z.n in m && m[z.n] == HolderFields(z, t.n)
    ensures z.up.n in m && m[z.up.n] == HolderFields(z.up, z.n)
    ensures Linked(m, t.l, t.n) && Linked(m, t.r, t.n)
    ensures Linked(m, z.sib, z.n) && Linked(m, z.up.sib, z.up.n)
    ensures PathLinked(m, z.up.up, z.up.n) && root == Outer(z.up.up, z.up.n)
  {
    LinkedBin(m, t, z.n);
    PathLinkedStep(m, z, t.n);
    PathLinkedStep(m, z.up, z.n);
    assert Outer(z, t.n) == Outer(z.up, z.n) == Outer(z.up.up, z.up.n);
  }

  lemma PathElsewhere(m: Memory, w: Memory, changed: set<RbNode>, z: Path, top: RbNode?)
    requires PathLinked(m, z, top) && PathNodes(z) !! changed
    requires m.Keys <= w.Keys
    requires forall x <- m :: x !in changed ==> w[x] == m[x]
    ensures PathLinked(w, z, top)
  {
  }

  // ---------- __rb_change_child ----------

  ghost function ChangeChild(m: Memory, parent: RbNode?, old_: RbNode, new_: RbNode?): (w: Memory)
    requires Has(m, parent) && Has(m, new_)
    ensures w.Keys == m.Keys
  {
    var m1 :=
      if parent == null then m
      else if m[parent].left == old_ then m[parent := m[parent].(left := new_)]
      else m[parent := m[parent].(right := new_)];
    SetParent(m1, new_, parent)
  }

  ghost function NewRoot(root: RbNode?, parent: RbNode?, new_: RbNode?): RbNode? {
    if parent == null then new_ else root
  }

  lemma ChangeChildLinks(m: Memory, root: RbNode?, z: Path, old_: RbNode, new_: RbNode?)
    requires PathDistinct(z) && PathLinked(m, z, old_) && old_ !in PathNodes(z)
    requires root == Outer(z, old_)
    requires Has(m, new_) && (new_ != null ==> new_ !in PathNodes(z))
    ensures Has(m, Holder(z))
    ensures var w := ChangeChild(m, Holder(z), old_, new_);
      && PathLinked(w, z, new_)
      && NewRoot(root, Holder(z), new_) == Outer(z, new_)
      && (forall x <- m :: x != new_ && x !in PathNodes(z) ==> w[x] == m[x])
      && (new_ != null ==> w[new_] == m[new_].(parent := Holder(z)))
  {
    if !z.Here? { ChangeChildBelow(m, z, old_, new_); }
  }

  lemma ChangeChildBelow(m: Memory, z: Path, old_: RbNode, new_: RbNode?)
    requires PathDistinct(z) && PathLinked(m, z, old_) && old_ !in PathNodes(z) && !z.Here?
    requires Has(m, new_) && (new_ != null ==> new_ !in PathNodes(z))
    ensures Has(m, z.n)
    ensures var w := ChangeChild(m, z.n, old_, new_);
      && PathLinked(w, z, new_)
      && (forall x <- m :: x != new_ && x !in PathNodes(z) ==> w[x] == m[x])
      && (new_ != null ==> w[new_] == m[new_].(parent := z.n))
  {
    hide PathLinked, Linked;
    PathLinkedStep(m, z, old_);
    var w := ChangeChild(m, z.n, old_, new_);
    PathElsewhere(m, w, {z.n} + (if new_ == null then {} else {new_}), z.up, z.n);
    TopIn(m, z.sib, z.n);
    LinkedFrame(m, w, z.sib, z.n);
    PathLinkedStep(w, z, new_);
  }

  // ---------- painting ----------

  ghost function Paint(m: Memory, n: RbNode, c: Color): (w: Memory)
    requires n in m
    ensures w.Keys == m.Keys
  {
    m[n := m[n].(color := c)]
  }

  /** Recolours a node in the top two levels. */
  ghost function Repaint(s: Tree, n: RbNode, c: Color): Tree
    requires s.Bin?
  {
    if n == s.n then s.(c := c)
    else if n == Top(s.l) then s.(l := s.l.(c := c))
    else if n == Top(s.r) then s.(r := s.r.(c := c))
    else s
  }

  lemma PaintLinks(m: Memory, s: Tree, p: RbNode?, c: Color)
    requires s.Bin? && Distinct(s) && Linked(m, s, p)
    ensures s.n in m && Linked(Paint(m, s.n, c), s.(c := c), p)
  {
    LinkedBin(m, s, p);
    var w := Paint(m, s.n, c);
    Elsewhere(m, w, {s.n}, s.l, s.n);
    Elsewhere(m, w, {s.n}, s.r, s.n);
    LinkedBin(w, s.(c := c), p);
  }

  lemma OpenPaint(m: Memory, root: RbNode?, z: Path, s: Tree, n: RbNode, c: Color)
    requires Open(m, root, z, s) && s.Bin?
    requires n == s.n || n == Top(s.l) || n == Top(s.r)
    ensures n in m && Open(Paint(m, n, c), root, z, Repaint(s, n, c))
    ensures InOrder(Repaint(s, n, c)) == InOrder(s)
  {
    OpenHas(m, root, z, s);
    LinkedBin(m, s, Holder(z));
    var w := Paint(m, n, c);
    var u := Repaint(s, n, c);
    PathElsewhere(m, w, {n}, z, s.n);
    if n == s.n {
      PaintLinks(m, s, Holder(z), c);
    } else if n == Top(s.l) {
      PaintLinks(m, s.l, s.n, c);
      Elsewhere(m, w, {n}, s.r, s.n);
      LinkedBin(w, u, Holder(z));
    } else {
      PaintLinks(m, s.r, s.n, c);
      Elsewhere(m, w, {n}, s.l, s.n);
      LinkedBin(w, u, Holder(z));
    }
  }

  // ---------- rotation ----------

  /** `__rb_change_child` followed by `__connect34`: the subtree with top `top` is put
  together anew in the shape `s`. */
  ghost function Hoist(m: Memory, parent: RbNode?, top: RbNode, s: Tree): (w: Memory)
    requires s.Bin? && s.l.Bin? && s.r.Bin?
    requires s.l.n in m && s.n in m && s.r.n in m && Has(m, parent)
    requires Has(m, Top(s.l.l)) && Has(m, Top(s.l.r)) && Has(m, Top(s.r.l)) && Has(m, Top(s.r.r))
    ensures w.Keys == m.Keys
  {
    Connect34(ChangeChild(m, parent, top, s.n), s.l.n, s.n, s.r.n,
              Top(s.l.l), Top(s.l.r), Top(s.r.l), Top(s.r.r))
  }

  /** All that a rotation into the shape `s` needs to find in memory. */
  ghost predicate Rotatable(m: Memory, root: RbNode?, z: Path, top: RbNode, s: Tree,
                            q1: RbNode?, q2: RbNode?, q3: RbNode?, q4: RbNode?)
  {
    && s.Bin? && s.l.Bin? && s.r.Bin? && Apart(z, s)
    && m.Keys == PathNodes(z) + Nodes(s)
    && m[s.l.n].color == s.l.c && m[s.n].color == s.c && m[s.r.n].color == s.r.c
    && Linked(m, s.l.l, q1) && Linked(m, s.l.r, q2) && Linked(m, s.r.l, q3) && Linked(m, s.r.r, q4)
    && top in m && m[top].parent == Holder(z)
    && top !in PathNodes(z) && PathLinked(m, z, top) && root == Outer(z, top)
  }

  /** A new shape with the same order as the open subtree. */
  lemma ReshapeOpen(m: Memory, root: RbNode?, z: Path, t: Tree, y: Path, s: Tree)
    requires Open(m, root, z, t) && m.Keys == PathNodes(z) + Nodes(t)
    requires Order(y, s) == Order(z, t)
    ensures Apart(y, s) && m.Keys == PathNodes(y) + Nodes(s)
  {
    Reshape(z, t, y, s);
  }

  lemma HoistOpen(m: Memory, root: RbNode?, z: Path, top: RbNode, s: Tree,
                  q1: RbNode?, q2: RbNode?, q3: RbNode?, q4: RbNode?)
    requires Rotatable(m, root, z, top, s, q1, q2, q3, q4)
    ensures s.l.n in m && s.n in m && s.r.n in m
    ensures Has(m, Holder(z))
    ensures Has(m, Top(s.l.l)) && Has(m, Top(s.l.r)) && Has(m, Top(s.r.l)) && Has(m, Top(s.r.r))
    ensures Open(Hoist(m, Holder(z), top, s), NewRoot(root, Holder(z), s.n), z, s)
    ensures Hoist(m, Holder(z), top, s)[s.n].parent == Holder(z)
  {
    ChangeChildLinks(m, root, z, top, s.n);
    var m1 := ChangeChild(m, Holder(z), top, s.n);
    var changed := PathNodes(z) + {s.n};
    Elsewhere(m, m1, changed, s.l.l, q1);
    Elsewhere(m, m1, changed, s.l.r, q2);
    Elsewhere(m, m1, changed, s.r.l, q3);
    Elsewhere(m, m1, changed, s.r.r, q4);
    Connect34Links(m1, s, q1, q2, q3, q4);
    var w := Hoist(m, Holder(z), top, s);
    PathElsewhere(m1, w, Nodes(s), z, s.n);
    OpenHas(w, NewRoot(root, Holder(z), s.n), z, s);
  }

  // ---------- __rb_link_node ----------

  ghost function Leaf(x: RbNode): Tree {
    Bin(Nil, x, Red, Nil)
  }

  ghost function LinkNode(m: Memory, x: RbNode, parent: RbNode?, left: bool): (w: Memory)
    requires Has(m, parent)
    ensures w.Keys == m.Keys + {x}
  {
    var m1 := m[x := Fields(null, null, parent, Red)];
    if parent == null then m1
    else if left then m1[parent := m1[parent].(left := x)]
    else m1[parent := m1[parent].(right := x)]
  }

  lemma LinkNodeOpen(m: Memory, root: RbNode?, z: Path, x: RbNode)
    requires Open(m, root, z, Nil) && x !in PathNodes(z)
    ensures Has(m, Holder(z))
    ensures Open(LinkNode(m, x, Holder(z), z.GoLeft?), NewRoot(root, Holder(z), x), z, Leaf(x))
  {
    OpenHas(m, root, z, Nil);
    var w := LinkNode(m, x, Holder(z), z.GoLeft?);
    LinkedBin(w, Leaf(x), Holder(z));
    if !z.Here? {
      PathLinkedStep(m, z, null);
      PathElsewhere(m, w, {z.n, x}, z.up, z.n);
      TopIn(m, z.sib, z.n);
      LinkedFrame(m, w, z.sib, z.n);
      PathLinkedStep(w, z, x);
    }
  }
}
