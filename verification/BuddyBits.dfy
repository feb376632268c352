/** Page numbers bit by bit: naturally aligned blocks and their buddies. */
module BuddyBits {

  function Pow(k: nat): (r: int)
    ensures r >= 1
  {
    if k == 0 then 1 else 2 * Pow(k - 1)
  }

  /** `a` with its low `k` bits cleared: the start of the order-`k` block that holds page `a`. */
  function Floor(a: int, k: nat): int
    requires a >= 0
    decreases k
  {
    if k == 0 then a else 2 * Floor(a / 2, k - 1)
  }

  /** `a ^ (1 << k)` */
  function Flip(a: int, k: nat): (r: int)
    requires a >= 0
    ensures r >= 0
    decreases k
  {
    if k == 0 then (if a % 2 == 0 then a + 1 else a - 1) else 2 * Flip(a / 2, k - 1) + a % 2
  }

  lemma {:induction false} FloorBounds(a: int, k: nat)
    requires a >= 0
    ensures 0 <= Floor(a, k) <= a < Floor(a, k) + Pow(k)
    decreases k
  {
    if k > 0 { FloorBounds(a / 2, k - 1); }
  }

  lemma {:induction false} FloorOfFloor(a: int, j: nat, k: nat)
    requires a >= 0 && j <= k
    ensures Floor(a, j) >= 0 && Floor(Floor(a, j), k) == Floor(a, k)
    ensures Floor(a, k) >= 0 && Floor(Floor(a, k), j) == Floor(a, k)
    decreases k
  {
    FloorBounds(a, j);
    FloorBounds(a, k);
    if j > 0 {
      FloorOfFloor(a / 2, j - 1, k - 1);
      assert Floor(a, j) / 2 == Floor(a / 2, j - 1);
      assert Floor(a, k) / 2 == Floor(a / 2, k - 1);
    }
  }

  /** An aligned block holds exactly the pages that round down to its start. */
  lemma {:induction false} BlockPages(a: int, k: nat, p: int)
    requires a >= 0 && p >= 0 && Floor(a, k) == a
    ensures Floor(p, k) == a <==> a <= p < a + Pow(k)
    decreases k
  {
    FloorBounds(p, k);
    if k > 0 && a <= p < a + Pow(k) {
      assert a / 2 * 2 == a;
      assert Floor(a / 2, k - 1) == a / 2;
      BlockPages(a / 2, k - 1, p / 2);
    }
  }

  lemma {:induction false} FlipAligned(a: int, k: nat)
    requires a >= 0 && Floor(a, k) == a
    ensures Floor(Flip(a, k), k) == Flip(a, k) && Flip(Flip(a, k), k) == a
    ensures Floor(a, k + 1) == Floor(Flip(a, k), k + 1)
    ensures if Floor(a, k + 1) == a then Flip(a, k) == a + Pow(k) else Flip(a, k) == a - Pow(k)
    ensures Floor(a, k + 1) == if Flip(a, k) < a then Flip(a, k) else a
    decreases k
  {
    if k > 0 {
      assert a / 2 * 2 == a && Floor(a / 2, k - 1) == a / 2;
      FlipAligned(a / 2, k - 1);
      assert Flip(a, k) == 2 * Flip(a / 2, k - 1);
      assert Flip(a, k) / 2 == Flip(a / 2, k - 1);
      assert Floor(a, k + 1) == 2 * Floor(a / 2, k);
      assert Floor(Flip(a, k), k + 1) == 2 * Floor(Flip(a / 2, k - 1), k);
    }
  }

  /** A block is the union of two buddies. */
  lemma TwoHalves(c: int, k: nat, p: int)
    requires c >= 0 && p >= 0 && Floor(c, k + 1) == c
    ensures Floor(c, k) == c
    ensures Floor(p, k + 1) == c <==> Floor(p, k) == c || Floor(p, k) == Flip(c, k)
  {
    FloorOfFloor(c, k, k + 1);
    FloorOfFloor(p, k, k + 1);
    FlipAligned(c, k);
    var f := Floor(p, k);
    FloorOfFloor(p, k, k);
    if Floor(p, k + 1) == c {
      BlockPages(c, k + 1, f);
      if f >= c + Pow(k) {
        BlockPages(Flip(c, k), k, f);
      } else {
        BlockPages(c, k, f);
      }
    }
  }

  lemma {:induction false} PowGrows(j: nat, k: nat)
    requires j <= k
    ensures Pow(j) <= Pow(k)
  {
    if j < k { PowGrows(j, k - 1); }
  }
}
