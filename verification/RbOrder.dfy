/** Where `rb_insert` puts a node and what the searches find, in terms of the order. */
module RbOrder {
  import opened RbShape

  /** What `less_func` promises, over the nodes in use. */
  ghost predicate StrictWeak(less: (RbNode, RbNode) -> bool, S: set<RbNode>) {
    && (forall a <- S :: !less(a, a))
    && (forall a <- S, b <- S, c <- S :: less(a, b) && less(b, c) ==> less(a, c))
    && (forall a <- S, b <- S, c <- S :: less(a, c) ==> less(a, b) || less(b, c))
  }

  ghost predicate Sorted(s: seq<RbNode>, less: (RbNode, RbNode) -> bool) {
    forall i, j :: 0 <= i < j < |s| ==> !less(s[j], s[i])
  }

  /** The turns of `rb_insert` on its way down. */
  ghost predicate Followed(z: Path, x: RbNode, less: (RbNode, RbNode) -> bool) {
    match z
    case Here => true
    case GoLeft(up, n, _, _) => less(x, n) && Followed(up, x, less)
    case GoRight(up, n, _, _) => !less(x, n) && Followed(up, x, less)
  }

  ghost predicate AllBelow(s: seq<RbNode>, x: RbNode, less: (RbNode, RbNode) -> bool) {
    forall i :: 0 <= i < |s| ==> !less(x, s[i])
  }

  ghost predicate AllAbove(s: seq<RbNode>, x: RbNode, less: (RbNode, RbNode) -> bool) {
    forall i :: 0 <= i < |s| ==> less(x, s[i])
  }

  lemma SortedParts(a: seq<RbNode>, b: seq<RbNode>, less: (RbNode, RbNode) -> bool)
    requires Sorted(a + b, less)
    ensures Sorted(a, less) && Sorted(b, less)
  {
    var s := a + b;
    forall i, j | 0 <= i < j < |a| ensures !less(a[j], a[i]) {
      assert a[i] == s[i] && a[j] == s[j];
    }
    forall i, j | 0 <= i < j < |b| ensures !less(b[j], b[i]) {
      assert b[i] == s[|a| + i] && b[j] == s[|a| + j];
    }
  }

  /** A subtree whose top the new node is less than lies wholly above it from the top on. */
  lemma AboveFrom(n: RbNode, r: seq<RbNode>, x: RbNode, less: (RbNode, RbNode) -> bool, S: set<RbNode>)
    requires StrictWeak(less, S) && x in S && Elems([n] + r) <= S
    requires Sorted([n] + r, less) && less(x, n)
    ensures AllAbove([n] + r, x, less)
  {
    var s := [n] + r;
    forall i | 0 <= i < |s| ensures less(x, s[i]) {
      assert s[i] in Elems(s) && s[0] in Elems(s);
      if i > 0 { assert !less(s[i], s[0]); }
    }
  }

  lemma BelowUpTo(l: seq<RbNode>, n: RbNode, x: RbNode, less: (RbNode, RbNode) -> bool, S: set<RbNode>)
    requires StrictWeak(less, S) && x in S && Elems(l + [n]) <= S
    requires Sorted(l + [n], less) && !less(x, n)
    ensures AllBelow(l + [n], x, less)
  {
    var s := l + [n];
    forall i | 0 <= i < |s| ensures !less(x, s[i]) {
      assert s[i] in Elems(s) && s[|l|] in Elems(s);
      if i < |l| { assert !less(s[|l|], s[i]); }
    }
  }

  lemma SibElems(z: Path, S: set<RbNode>)
    requires !z.Here? && PathNodes(z) <= S
    ensures Elems([z.n] + InOrder(z.sib)) <= S && Elems(InOrder(z.sib) + [z.n]) <= S
  {
    var r := InOrder(z.sib);
    InOrderNodes(z.sib);
    assert Elems([z.n] + r) == {z.n} + Elems(r);
    assert Elems(r + [z.n]) == Elems(r) + {z.n};
  }

  lemma PlaceLeft(z: Path, t: Tree, x: RbNode, less: (RbNode, RbNode) -> bool, S: set<RbNode>)
    requires StrictWeak(less, S) && x in S && z.GoLeft? && PathNodes(z) <= S
    requires Sorted(Order(z, t), less) && less(x, z.n) && AllAbove(After(z.up), x, less)
    ensures AllAbove(After(z), x, less)
  {
    hide StrictWeak, PathNodes, Elems;
    var r := InOrder(z.sib);
    var w := [z.n] + r;
    SibElems(z, S);
    assert Order(z, t) == (Before(z.up) + InOrder(t)) + (w + After(z.up));
    assert After(z) == w + After(z.up);
    SortedParts(Before(z.up) + InOrder(t), w + After(z.up), less);
    SortedParts(w, After(z.up), less);
    AboveFrom(z.n, r, x, less, S);
  }

  lemma PlaceRight(z: Path, t: Tree, x: RbNode, less: (RbNode, RbNode) -> bool, S: set<RbNode>)
    requires StrictWeak(less, S) && x in S && z.GoRight? && PathNodes(z) <= S
    requires Sorted(Order(z, t), less) && !less(x, z.n) && AllBelow(Before(z.up), x, less)
    ensures AllBelow(Before(z), x, less)
  {
    hide StrictWeak, PathNodes, Elems;
    var l := InOrder(z.sib);
    var w := l + [z.n];
    SibElems(z, S);
    assert Order(z, t) == (Before(z.up) + w) + (InOrder(t) + After(z.up));
    assert Before(z) == Before(z.up) + w;
    SortedParts(Before(z.up) + w, InOrder(t) + After(z.up), less);
    SortedParts(Before(z.up), w, less);
    BelowUpTo(l, z.n, x, less, S);
  }

  /** The place found on the way down is just after every node the new one is not less than. */
  lemma {:induction false} Place(z: Path, t: Tree, x: RbNode, less: (RbNode, RbNode) -> bool, S: set<RbNode>)
    requires StrictWeak(less, S) && x in S && PathNodes(z) <= S
    requires Sorted(Order(z, t), less) && Followed(z, x, less)
    ensures AllBelow(Before(z), x, less) && AllAbove(After(z), x, less)
  {
    if !z.Here? {
      assert Followed(z.up, x, less) && PathNodes(z.up) <= S;
      OrderUp(z, t);
      Place(z.up, Up(z, t), x, less, S);
      hide StrictWeak, Sorted, AllAbove, AllBelow, PathNodes;
      if z.GoLeft? {
        PlaceLeft(z, t, x, less, S);
      } else {
        PlaceRight(z, t, x, less, S);
      }
    }
  }

  lemma InsertSorted(a: seq<RbNode>, x: RbNode, b: seq<RbNode>, less: (RbNode, RbNode) -> bool, S: set<RbNode>)
    requires StrictWeak(less, S) && x in S && Elems(a + b) <= S
    requires Sorted(a + b, less) && AllBelow(a, x, less) && AllAbove(b, x, less)
    ensures Sorted(a + [x] + b, less)
  {
    var s, w := a + b, a + [x] + b;
    forall i, j | 0 <= i < j < |w| ensures !less(w[j], w[i]) {
      if i == |a| {
        assert w[j] == b[j - |a| - 1] == s[j - 1];
        assert w[j] in Elems(s);
        assert less(x, b[j - |a| - 1]);
      } else if j == |a| {
        assert w[i] == a[i];
      } else {
        var i', j' := if i < |a| then i else i - 1, if j < |a| then j else j - 1;
        assert w[i] == s[i'] && w[j] == s[j'];
      }
    }
  }

  // ---------- searching by key ----------

  /** The key comparison `cmp(key, node)` falls along the order. */
  ghost predicate Falling(s: seq<RbNode>, cmp: RbNode -> int) {
    forall i, j :: 0 <= i < j < |s| ==> (cmp(s[i]) <= 0 ==> cmp(s[j]) <= 0) && (cmp(s[i]) < 0 ==> cmp(s[j]) < 0)
  }

  ghost predicate AllPositive(s: seq<RbNode>, cmp: RbNode -> int) {
    forall i :: 0 <= i < |s| ==> cmp(s[i]) > 0
  }

  ghost predicate AllNegative(s: seq<RbNode>, cmp: RbNode -> int) {
    forall i :: 0 <= i < |s| ==> cmp(s[i]) < 0
  }

  ghost predicate NoMatch(s: seq<RbNode>, cmp: RbNode -> int) {
    forall i :: 0 <= i < |s| ==> cmp(s[i]) != 0
  }

  /** Everything before the place is too small and everything after it too big. */
  ghost predicate Between(z: Path, cmp: RbNode -> int) {
    AllPositive(Before(z), cmp) && AllNegative(After(z), cmp)
  }

  lemma FallingParts(a: seq<RbNode>, b: seq<RbNode>, cmp: RbNode -> int)
    requires Falling(a + b, cmp)
    ensures Falling(a, cmp) && Falling(b, cmp)
  {
    var s := a + b;
    assert forall i :: 0 <= i < |a| ==> a[i] == s[i];
    assert forall i :: 0 <= i < |b| ==> b[i] == s[|a| + i];
  }

  lemma GoLeftFalls(z: Path, t: Tree, cmp: RbNode -> int)
    requires t.Bin? && Falling(Order(z, t), cmp) && cmp(t.n) < 0
    ensures AllNegative([t.n] + InOrder(t.r), cmp)
  {
    var w := [t.n] + InOrder(t.r);
    assert Order(z, t) == (Before(z) + InOrder(t.l)) + (w + After(z));
    FallingParts(Before(z) + InOrder(t.l), w + After(z), cmp);
    FallingParts(w, After(z), cmp);
    assert w[0] == t.n;
  }

  lemma GoRightFalls(z: Path, t: Tree, cmp: RbNode -> int)
    requires t.Bin? && Falling(Order(z, t), cmp) && cmp(t.n) > 0
    ensures AllPositive(InOrder(t.l) + [t.n], cmp)
  {
    var w := InOrder(t.l) + [t.n];
    assert Order(z, t) == (Before(z) + w) + (InOrder(t.r) + After(z));
    FallingParts(Before(z) + w, InOrder(t.r) + After(z), cmp);
    FallingParts(Before(z), w, cmp);
    assert w[|w| - 1] == t.n;
  }

  /** A match at `t.n` leaves no smaller node after it to the left of it. */
  lemma MatchFalls(z: Path, t: Tree, cmp: RbNode -> int)
    requires t.Bin? && Falling(Order(z, t), cmp)
    requires |After(z)| > 0 && cmp(After(z)[0]) == 0
    ensures cmp(t.n) >= 0
  {
    var w := [t.n] + InOrder(t.r);
    assert Order(z, t) == (Before(z) + InOrder(t.l)) + (w + After(z));
    FallingParts(Before(z) + InOrder(t.l), w + After(z), cmp);
    assert (w + After(z))[0] == t.n && (w + After(z))[|w|] == After(z)[0];
  }

  lemma SearchStart(t: Tree, cmp: RbNode -> int)
    ensures Plug(Here, t) == t && Between(Here, cmp) && Order(Here, t) == InOrder(t)
  {
  }

  lemma SearchLeft(z: Path, t: Tree, cmp: RbNode -> int)
    requires t.Bin? && Falling(Order(z, t), cmp) && cmp(t.n) < 0 && Between(z, cmp)
    ensures var y := GoLeft(z, t.n, t.c, t.r);
      Between(y, cmp) && Order(y, t.l) == Order(z, t) && Plug(y, t.l) == Plug(z, t)
  {
    var y := GoLeft(z, t.n, t.c, t.r);
    GoLeftFalls(z, t, cmp);
    OrderUp(y, t.l);
    assert After(y) == ([t.n] + InOrder(t.r)) + After(z);
  }

  lemma SearchRight(z: Path, t: Tree, cmp: RbNode -> int)
    requires t.Bin? && Falling(Order(z, t), cmp) && cmp(t.n) > 0 && AllPositive(Before(z), cmp)
    ensures var y := GoRight(z, t.n, t.c, t.l);
      && AllPositive(Before(y), cmp) && After(y) == After(z)
      && Order(y, t.r) == Order(z, t) && Plug(y, t.r) == Plug(z, t)
  {
    var y := GoRight(z, t.n, t.c, t.l);
    GoRightFalls(z, t, cmp);
    OrderUp(y, t.r);
    assert Before(y) == Before(z) + (InOrder(t.l) + [t.n]);
  }

  lemma Found(z: Path, t: Tree)
    requires t.Bin?
    ensures t.n in Nodes(Plug(z, t)) && t.n in Order(z, t)
  {
    PlugNodes(z, t);
    assert t.n in InOrder(t);
  }

  lemma SearchEnd(z: Path, cmp: RbNode -> int)
    requires Between(z, cmp)
    ensures NoMatch(Order(z, Nil), cmp)
  {
    assert Order(z, Nil) == Before(z) + After(z);
  }

  /** The best match so far is the first node after the place. */
  ghost predicate FirstSoFar(z: Path, r: RbNode?, cmp: RbNode -> int) {
    && AllPositive(Before(z), cmp)
    && (r == null ==> AllNegative(After(z), cmp))
    && (r != null ==> |After(z)| > 0 && After(z)[0] == r && cmp(r) == 0)
  }

  lemma FirstLeft(z: Path, t: Tree, r: RbNode?, cmp: RbNode -> int)
    requires t.Bin? && Falling(Order(z, t), cmp) && cmp(t.n) <= 0 && FirstSoFar(z, r, cmp)
    requires cmp(t.n) < 0 ==> r == null
    ensures var y := GoLeft(z, t.n, t.c, t.r);
      && FirstSoFar(y, if cmp(t.n) == 0 then t.n else r, cmp)
      && Order(y, t.l) == Order(z, t) && Plug(y, t.l) == Plug(z, t)
  {
    var y := GoLeft(z, t.n, t.c, t.r);
    OrderUp(y, t.l);
    assert After(y) == ([t.n] + InOrder(t.r)) + After(z);
    if cmp(t.n) < 0 { GoLeftFalls(z, t, cmp); }
  }

  lemma FirstEnd(z: Path, r: RbNode?, cmp: RbNode -> int)
    requires FirstSoFar(z, r, cmp)
    ensures r == null ==> NoMatch(Order(z, Nil), cmp)
    ensures r != null ==> First(Order(z, Nil), r, cmp)
  {
    var s := Order(z, Nil);
    assert s == Before(z) + After(z);
    if r != null {
      assert s[|Before(z)|] == r && s[..|Before(z)|] == Before(z);
    }
  }

  ghost predicate First(s: seq<RbNode>, r: RbNode, cmp: RbNode -> int) {
    exists k :: 0 <= k < |s| && s[k] == r && cmp(s[k]) == 0 && NoMatch(s[..k], cmp)
  }

  // ---------- walking ----------

  /** What follows the top of `t` in the order. */
  ghost function NextIn(z: Path, t: Tree): RbNode?
    requires t.Bin?
  {
    var rest := InOrder(t.r) + After(z);
    if rest == [] then null else rest[0]
  }

  ghost function PrevIn(z: Path, t: Tree): RbNode?
    requires t.Bin?
  {
    var front := Before(z) + InOrder(t.l);
    if front == [] then null else front[|front| - 1]
  }

  lemma NeighboursAt(z: Path, t: Tree) returns (i: nat)
    requires t.Bin?
    ensures var o := Order(z, t);
      && i < |o| && o[i] == t.n
      && NextIn(z, t) == (if i + 1 < |o| then o[i + 1] else null)
      && PrevIn(z, t) == (if i > 0 then o[i - 1] else null)
  {
    var a, b := Before(z) + InOrder(t.l), InOrder(t.r) + After(z);
    i := |a|;
    assert Order(z, t) == a + [t.n] + b;
  }

  /** Without a right subtree the successor lies above. */
  lemma NextAbove(z: Path, t: Tree)
    requires t.Bin? && t.r.Nil?
    ensures NextIn(z, t) == (if After(z) == [] then null else After(z)[0])
  {
    assert InOrder(t.r) + After(z) == After(z);
  }

  lemma PrevAbove(z: Path, t: Tree)
    requires t.Bin? && t.l.Nil?
    ensures PrevIn(z, t) == (if Before(z) == [] then null else Before(z)[|Before(z)| - 1])
  {
    assert Before(z) + InOrder(t.l) == Before(z);
  }

  ghost predicate IsFirst(t: Tree, r: RbNode) {
    InOrder(t) != [] && InOrder(t)[0] == r
  }

  ghost predicate IsLast(t: Tree, r: RbNode) {
    InOrder(t) != [] && InOrder(t)[|InOrder(t)| - 1] == r
  }

  lemma FirstStep(t: Tree)
    requires t.Bin?
    ensures t.l.Nil? ==> IsFirst(t, t.n)
    ensures InOrder(t) != []
    ensures t.l.Bin? ==> InOrder(t.l) != [] && InOrder(t)[0] == InOrder(t.l)[0]
  {
  }

  lemma LastStep(t: Tree)
    requires t.Bin?
    ensures t.r.Nil? ==> IsLast(t, t.n)
    ensures t.r.Bin? ==>
      && InOrder(t.r) != [] && InOrder(t) != []
      && InOrder(t)[|InOrder(t)| - 1] == InOrder(t.r)[|InOrder(t.r)| - 1]
  {
  }
}
