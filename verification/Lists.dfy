/** Linked lists as sequences: `list_del`, `list_add` and `list_append` on lists without
duplicates. */
module Lists {

  ghost predicate NoDup<T>(l: seq<T>) {
    forall i, j :: 0 <= i < j < |l| ==> l[i] != l[j]
  }

  /** `list_del` */
  function Without<T(==)>(l: seq<T>, x: T): seq<T> {
    if l == [] then [] else if l[0] == x then l[1..] else [l[0]] + Without(l[1..], x)
  }

  lemma NoDupTail<T>(l: seq<T>)
    requires NoDup(l) && l != []
    ensures NoDup(l[1..]) && l[0] !in l[1..] && forall x :: x in l <==> x == l[0] || x in l[1..]
  {
    var t := l[1..];
    forall i, j | 0 <= i < j < |t| ensures t[i] != t[j] { assert t[i] == l[i + 1] && t[j] == l[j + 1]; }
    forall i | 0 <= i < |t| ensures t[i] != l[0] { assert t[i] == l[i + 1]; }
  }

  lemma NoDupCons<T>(x: T, l: seq<T>)
    requires NoDup(l) && x !in l
    ensures NoDup([x] + l)
  {
  }

  lemma NoDupSnoc<T>(l: seq<T>, x: T)
    requires NoDup(l) && x !in l
    ensures NoDup(l + [x])
  {
  }

  lemma {:induction false} WithoutIs<T>(l: seq<T>, x: T)
    requires NoDup(l)
    ensures NoDup(Without(l, x)) && forall y :: y in Without(l, x) <==> y in l && y != x
    ensures |Without(l, x)| == |l| - (if x in l then 1 else 0)
  {
    if l != [] {
      NoDupTail(l);
      WithoutIs(l[1..], x);
      if l[0] != x { NoDupCons(l[0], Without(l[1..], x)); }
    }
  }

  lemma {:induction false} WithoutAbsent<T>(l: seq<T>, x: T)
    requires x !in l
    ensures Without(l, x) == l
  {
    if l != [] { WithoutAbsent(l[1..], x); }
  }

  lemma {:induction false} WithoutShorter<T>(l: seq<T>, x: T)
    ensures |Without(l, x)| <= |l|
  {
    if l != [] { WithoutShorter(l[1..], x); }
  }

  lemma InsertIs(l: seq<int>, k: int, t: int)
    requires NoDup(l) && t !in l && 0 <= k <= |l|
    ensures NoDup(l[..k] + [t] + l[k..]) && forall x :: x in l[..k] + [t] + l[k..] <==> x in l || x == t
  {
    var r := l[..k] + [t] + l[k..];
    forall i | 0 <= i < |r| ensures r[i] == if i < k then l[i] else if i == k then t else l[i - 1] { }
    forall x | x in l ensures x in r {
      var i :| 0 <= i < |l| && l[i] == x;
      assert r[if i < k then i else i + 1] == x;
    }
  }

  lemma {:induction false} ListSize(l: seq<int>)
    requires NoDup(l)
    ensures |set x | x in l| == |l|
  {
    if l != [] {
      NoDupTail(l);
      ListSize(l[1..]);
      assert (set x | x in l) == (set x | x in l[1..]) + {l[0]};
    }
  }

  /** A list without duplicates inside another is no longer, and as long only if it is all of it. */
  lemma SubsetSize(a: seq<int>, b: seq<int>)
    requires NoDup(a) && NoDup(b) && forall x <- a :: x in b
    ensures |a| <= |b| && (|a| == |b| ==> forall x <- b :: x in a)
  {
    ListSize(a);
    ListSize(b);
    var p, q := set x | x in a, set x | x in b;
    assert p <= q;
    SubsetCard(p, q);
    if |a| == |b| {
      forall x <- b ensures x in a { assert x in q; }
    }
  }

  lemma SubsetCard(p: set<int>, q: set<int>)
    requires p <= q
    ensures |p| <= |q| && (|p| == |q| ==> p == q)
  {
    assert q == p + (q - p) && |q| == |p| + |q - p|;
  }
}
