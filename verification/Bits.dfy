/** Unsigned words as sets of bits (`bitops.h`). */
module Bits {
  import opened BuddyBits

  /** Bit `i` of `x`. */
  function Bit(x: nat, i: nat): bool {
    if i == 0 then x % 2 == 1 else Bit(x / 2, i - 1)
  }

  /** `x | (1 << i)` */
  function SetBit(x: nat, i: nat): nat {
    if i == 0 then x - x % 2 + 1 else SetBit(x / 2, i - 1) * 2 + x % 2
  }

  /** `x & ~(1 << i)` */
  function ClearBit(x: nat, i: nat): nat {
    if i == 0 then x - x % 2 else ClearBit(x / 2, i - 1) * 2 + x % 2
  }

  /** `bsr`: the highest bit that is set. */
  function Bsr(x: nat): (i: nat)
    requires x > 0
    ensures Bit(x, i)
  {
    if x == 1 then 0 else Bsr(x / 2) + 1
  }

  lemma {:induction false} SetBitAt(x: nat, i: nat, j: nat)
    ensures Bit(SetBit(x, i), j) <==> i == j || Bit(x, j)
  {
    if i > 0 && j > 0 { SetBitAt(x / 2, i - 1, j - 1); }
  }

  lemma {:induction false} ClearBitAt(x: nat, i: nat, j: nat)
    ensures Bit(ClearBit(x, i), j) <==> i != j && Bit(x, j)
  {
    if i > 0 && j > 0 { ClearBitAt(x / 2, i - 1, j - 1); }
  }

  lemma {:induction false} InWord(x: nat, i: nat, w: nat)
    requires x < Pow(w) && i < w
    ensures SetBit(x, i) < Pow(w) && ClearBit(x, i) < Pow(w)
  {
    if i > 0 { InWord(x / 2, i - 1, w - 1); }
  }

  lemma {:induction false} BitsBeyond(x: nat, i: nat, w: nat)
    requires x < Pow(w) && i >= w
    ensures !Bit(x, i)
  {
    if w == 0 {
      NoBits(i);
    } else {
      BitsBeyond(x / 2, i - 1, w - 1);
    }
  }

  lemma {:induction false} NoBits(i: nat)
    ensures !Bit(0, i)
  {
    if i > 0 { NoBits(i - 1); }
  }

  lemma {:induction false} ZeroIff(x: nat, w: nat)
    requires x < Pow(w)
    ensures x == 0 <==> forall j: nat :: j < w ==> !Bit(x, j)
  {
    if x == 0 {
      forall j: nat ensures !Bit(0, j) { NoBits(j); }
    } else {
      var i := Bsr(x);
      if i >= w { BitsBeyond(x, i, w); }
      assert i < w && Bit(x, i);
    }
  }

  lemma {:induction false} FullHas(w: nat, j: nat)
    requires j < w
    ensures Bit(Pow(w) - 1, j)
  {
    assert (Pow(w) - 1) % 2 == 1 && (Pow(w) - 1) / 2 == Pow(w - 1) - 1;
    if j > 0 { FullHas(w - 1, j - 1); }
  }

  ghost predicate Ones(x: nat, w: nat) {
    forall j: nat :: j < w ==> Bit(x, j)
  }

  lemma {:induction false} OnesFull(x: nat, w: nat)
    requires x < Pow(w) && Ones(x, w)
    ensures x == Pow(w) - 1
  {
    if w > 0 {
      assert Bit(x, 0);
      forall j: nat | j < w - 1 ensures Bit(x / 2, j) { assert Bit(x, j + 1); }
      OnesFull(x / 2, w - 1);
    }
  }

  /** A word is all ones exactly when every one of its bits is set. */
  lemma FullIff(x: nat, w: nat)
    requires x < Pow(w)
    ensures x == Pow(w) - 1 <==> Ones(x, w)
  {
    hide Bit, Pow;
    if x == Pow(w) - 1 {
      forall j: nat | j < w ensures Bit(x, j) { FullHas(w, j); }
    } else if Ones(x, w) {
      OnesFull(x, w);
    }
  }

  lemma {:induction false} BsrHighest(x: nat, j: nat)
    requires x > 0 && j > Bsr(x)
    ensures !Bit(x, j)
  {
    if x == 1 {
      NoBits(j - 1);
    } else {
      BsrHighest(x / 2, j - 1);
    }
  }
}
