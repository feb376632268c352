/**
The slot table of a capability group (`cap_group.c`, `cap_group.h`): a bitmap of used slots, a
second bitmap of full bitmap words, and the slots themselves.
*/
module SlotTable {
  import opened BuddyBits
  import opened Bits
  import opened Wrappers

  const LONG := 64

  /** An array of 64-bit words, as `unsigned long *`. */
  ghost predicate Words(p: seq<nat>) {
    forall w :: 0 <= w < |p| ==> p[w] < Pow(LONG)
  }

  /** `get_bit` */
  predicate GetBit(p: seq<nat>, nr: nat)
    requires nr < |p| * LONG
  {
    Bit(p[nr / LONG], nr % LONG)
  }

  /** `set_bit` */
  function SetBitIn(p: seq<nat>, nr: nat): seq<nat>
    requires nr < |p| * LONG
  {
    p[nr / LONG := SetBit(p[nr / LONG], nr % LONG)]
  }

  /** `clear_bit` */
  function ClearBitIn(p: seq<nat>, nr: nat): seq<nat>
    requires nr < |p| * LONG
  {
    p[nr / LONG := ClearBit(p[nr / LONG], nr % LONG)]
  }

  lemma SetBitInAt(p: seq<nat>, nr: nat, j: nat)
    requires Words(p) && nr < |p| * LONG && j < |p| * LONG
    ensures |SetBitIn(p, nr)| == |p| && Words(SetBitIn(p, nr))
    ensures GetBit(SetBitIn(p, nr), j) <==> j == nr || GetBit(p, j)
  {
    hide Bit, SetBit, Pow;
    SetBitAt(p[nr / LONG], nr % LONG, j % LONG);
    InWord(p[nr / LONG], nr % LONG, LONG);
  }

  lemma ClearBitInAt(p: seq<nat>, nr: nat, j: nat)
    requires Words(p) && nr < |p| * LONG && j < |p| * LONG
    ensures |ClearBitIn(p, nr)| == |p| && Words(ClearBitIn(p, nr))
    ensures GetBit(ClearBitIn(p, nr), j) <==> j != nr && GetBit(p, j)
  {
    hide Bit, ClearBit, Pow;
    ClearBitAt(p[nr / LONG], nr % LONG, j % LONG);
    InWord(p[nr / LONG], nr % LONG, LONG);
  }

  /** A bit of the second bitmap is set exactly when the word of the first it stands for is all
  ones. */
  ghost predicate Marked(bmp: seq<nat>, full: seq<nat>) {
    && Words(bmp) && Words(full) && |full| == (|bmp| + LONG - 1) / LONG
    && (forall w :: 0 <= w < |bmp| ==> (GetBit(full, w) <==> bmp[w] == Pow(LONG) - 1))
    && (forall w :: |bmp| <= w < |full| * LONG ==> !GetBit(full, w))
  }

  lemma SetBits(p: seq<nat>, nr: nat)
    requires Words(p) && nr < |p| * LONG
    ensures |SetBitIn(p, nr)| == |p| && Words(SetBitIn(p, nr))
    ensures forall j: nat :: j < |p| * LONG ==> (GetBit(SetBitIn(p, nr), j) <==> j == nr || GetBit(p, j))
  {
    hide GetBit, SetBitIn;
    SetBitInAt(p, nr, nr);
    forall j: nat | j < |p| * LONG
      ensures GetBit(SetBitIn(p, nr), j) <==> j == nr || GetBit(p, j)
    {
      SetBitInAt(p, nr, j);
    }
  }

  lemma ClearBits(p: seq<nat>, nr: nat)
    requires Words(p) && nr < |p| * LONG
    ensures |ClearBitIn(p, nr)| == |p| && Words(ClearBitIn(p, nr))
    ensures forall j: nat :: j < |p| * LONG ==> (GetBit(ClearBitIn(p, nr), j) <==> j != nr && GetBit(p, j))
  {
    hide GetBit, ClearBitIn;
    ClearBitInAt(p, nr, nr);
    forall j: nat | j < |p| * LONG
      ensures GetBit(ClearBitIn(p, nr), j) <==> j != nr && GetBit(p, j)
    {
      ClearBitInAt(p, nr, j);
    }
  }

  lemma ClearMarked(bmp: seq<nat>, full: seq<nat>, id: nat)
    requires Marked(bmp, full) && id < |bmp| * LONG
    ensures Marked(ClearBitIn(bmp, id), ClearBitIn(full, id / LONG))
  {
    hide GetBit, ClearBitIn, Pow;
    ClearBits(bmp, id);
    ClearBits(full, id / LONG);
    ClearedNotFull(bmp, id);
  }

  /** What `alloc_slot_id` does to the second bitmap. */
  function Refull(bmp: seq<nat>, full: seq<nat>, id: nat): seq<nat>
    requires id < |bmp| * LONG && |full| == (|bmp| + LONG - 1) / LONG
  {
    if bmp[id / LONG] == Pow(LONG) - 1 then SetBitIn(full, id / LONG) else full
  }

  lemma SetMarked(bmp: seq<nat>, full: seq<nat>, id: nat)
    requires Marked(bmp, full) && id < |bmp| * LONG && !GetBit(bmp, id)
    ensures |SetBitIn(bmp, id)| == |bmp| && Marked(SetBitIn(bmp, id), Refull(SetBitIn(bmp, id), full, id))
  {
    hide GetBit, Pow, Bit, SetBit;
    SetBits(bmp, id);
    SetBits(full, id / LONG);
    UnsetNotFull(bmp, id);
  }

  lemma UnsetNotFull(p: seq<nat>, nr: nat)
    requires nr < |p| * LONG && !GetBit(p, nr)
    ensures p[nr / LONG] != Pow(LONG) - 1
  {
    hide Bit, Pow;
    if p[nr / LONG] == Pow(LONG) - 1 { FullHas(LONG, nr % LONG); }
  }

  /** Every bit of a full word is set, and a word that is not full has an unset bit. */
  lemma FullWord(p: seq<nat>, w: nat)
    requires Words(p) && w < |p|
    ensures p[w] == Pow(LONG) - 1 <==> forall j :: w * LONG <= j < w * LONG + LONG ==> GetBit(p, j)
  {
    hide Bit, Pow;
    FullIff(p[w], LONG);
    if p[w] == Pow(LONG) - 1 {
      forall j | w * LONG <= j < w * LONG + LONG ensures GetBit(p, j) { assert Bit(p[w], j - w * LONG); }
    } else {
      var j: nat :| j < LONG && !Bit(p[w], j);
      assert !GetBit(p, w * LONG + j);
    }
  }

  /** `find_next_bit_helper`: the first bit from `start` on that differs from `invert`. */
  method FindNextBit(p: seq<nat>, size: nat, start: nat, invert: bool) returns (res: nat)
    requires 0 < size <= |p| * LONG && start <= size
    ensures start <= res <= size
    ensures forall j :: start <= j < res ==> GetBit(p, j) == invert
    ensures res < size ==> GetBit(p, res) != invert
  {
    hide Bit;
    var maxElem := (size - 1) / LONG;
    var elem := start / LONG;
    var bit := start % LONG;
    res := start;
    while elem <= maxElem
      invariant elem <= maxElem + 1 && 0 <= bit < LONG
      invariant elem <= maxElem ==> res == elem * LONG + bit && start <= res <= size
      invariant elem == maxElem + 1 ==> res == size
      invariant start <= res <= size
      invariant forall j :: start <= j < res ==> GetBit(p, j) == invert
    {
      var maxBit := if elem < maxElem then LONG - 1 else (size - 1) % LONG;
      while bit <= maxBit
        invariant bit <= LONG && res == elem * LONG + bit && start <= res <= size
        invariant bit <= maxBit ==> res < size
        invariant forall j :: start <= j < res ==> GetBit(p, j) == invert
      {
        assert res / LONG == elem && res % LONG == bit;
        if Bit(p[elem], bit) != invert { return; }
        bit, res := bit + 1, res + 1;
      }
      elem, bit := elem + 1, 0;
    }
    return size;
  }

  class Table<T> {
    var size: nat
    var slots: seq<Option<T>>
    var bmp: seq<nat>
    var fullBmp: seq<nat>

    ghost predicate Valid() reads this {
      && 0 < size && size % LONG == 0 && |slots| == size
      && |bmp| == size / LONG && Marked(bmp, fullBmp)
      && (forall i :: 0 <= i < size && !GetBit(bmp, i) ==> slots[i] == None)
    }

    /** The slot numbers in use. */
    ghost predicate Used(i: int)
      requires Valid()
      reads this
    {
      0 <= i < size && GetBit(bmp, i)
    }

    /** `slot_table_init` */
    constructor (n: nat)
      requires n > 0
      ensures Valid() && n <= size < n + LONG && forall i :: !Used(i)
    {
      size := (n + LONG - 1) / LONG * LONG;
      slots := seq((n + LONG - 1) / LONG * LONG, _ => None);
      bmp := seq((n + LONG - 1) / LONG, _ => 0);
      fullBmp := seq(((n + LONG - 1) / LONG + LONG - 1) / LONG, _ => 0);
      new;
      hide Marked, GetBit;
      EmptyMarked(bmp, fullBmp);
    }

    /** `is_valid_slot_id` and `get_slot` */
    method GetSlot(id: int) returns (slot: Option<T>)
      requires Valid()
      ensures Used(id) ==> slot == slots[id]
      ensures !Used(id) ==> slot == None
    {
      if id < 0 || id >= size { return None; }
      return slots[id];
    }

    /** `install_slot` */
    method InstallSlot(id: int, slot: T)
      requires Valid() && Used(id)
      modifies `slots
      ensures Valid() && slots == old(slots)[id := Some(slot)]
    {
      slots := slots[id := Some(slot)];
    }

    /** `free_slot_id` */
    method FreeSlotId(id: int)
      requires Valid() && Used(id)
      modifies `slots, `bmp, `fullBmp
      ensures Valid() && slots == old(slots)[id := None]
      ensures forall i :: Used(i) <==> old(Used(i)) && i != id
    {
      hide GetBit, ClearBitIn, Marked;
      IsMarked(bmp, fullBmp);
      ClearBits(bmp, id);
      ClearMarked(bmp, fullBmp, id);
      bmp := ClearBitIn(bmp, id);
      fullBmp := ClearBitIn(fullBmp, id / LONG);
      slots := slots[id := None];
    }

    /** `expand_slot_table` */
    method Expand()
      requires Valid()
      modifies this
      ensures Valid() && size == old(size) + LONG
      ensures slots == old(slots) + seq(LONG, _ => None)
      ensures forall i :: Used(i) <==> old(Used(i))
    {
      hide Bit, Pow, GetBit;
      ghost var b, f := bmp, fullBmp;
      var n := (size / LONG + 1 + LONG - 1) / LONG - |fullBmp|;
      assert n == 0 || n == 1;
      bmp := bmp + [0];
      fullBmp := if n == 0 then fullBmp else fullBmp + [0];
      slots := slots + seq(LONG, _ => None);
      size := size + LONG;
      forall j: nat | j < |bmp| * LONG ensures GetBit(bmp, j) <==> j < |b| * LONG && GetBit(b, j) { Appended(b, j); }
      forall j: nat | j < |fullBmp| * LONG ensures GetBit(fullBmp, j) <==> j < |f| * LONG && GetBit(f, j) {
        if n == 1 { Appended(f, j); }
      }
      assert 0 < Pow(LONG) - 1 by { LongPow(); }
    }

    /** `alloc_slot_id`: the least unused slot; the table grows only when every slot is used. */
    method AllocSlotId() returns (id: int)
      requires Valid()
      modifies this
      ensures Valid() && !old(Used(id)) && id < size && forall i :: 0 <= i < id ==> old(Used(i))
      ensures forall i :: Used(i) <==> old(Used(i)) || i == id
      ensures id >= 0 && size == (if id < old(size) then old(size) else old(size) + LONG)
      ensures slots == if id < old(size) then old(slots) else old(slots) + seq(LONG, _ => None)
    {
      hide GetBit, SetBitIn, Marked, Refull;
      while true
        invariant Valid() && forall i :: Used(i) <==> old(Used(i))
        invariant || (size == old(size) && slots == old(slots))
                  || (size == old(size) + LONG && slots == old(slots) + seq(LONG, _ => None)
                    && forall i :: 0 <= i < old(size) ==> old(Used(i)))
        decreases if size == old(size) then 1 else 0
      {
        id := FindEmpty();
        assert size > old(size) ==> !Used(old(size));
        if id < size { break; }
        Expand();
      }
      forall i | 0 <= i < id ensures old(Used(i)) { assert Used(i); }
      IsMarked(bmp, fullBmp);
      SetBits(bmp, id);
      SetMarked(bmp, fullBmp, id);
      bmp := SetBitIn(bmp, id);
      fullBmp := Refull(bmp, fullBmp, id);
    }

    /** The two searches of `alloc_slot_id`, through the second bitmap and then the first. */
    method FindEmpty() returns (id: nat)
      requires Valid()
      ensures id <= size && !Used(id) && forall i :: 0 <= i < id ==> Used(i)
    {
      hide GetBit, Pow;
      var full := size / LONG;
      var word := FindNextBit(fullBmp, full, 0, true);
      forall i | 0 <= i < word * LONG ensures GetBit(bmp, i) { FullWord(bmp, i / LONG); }
      if word >= full { return size; }
      id := FindNextBit(bmp, size, word * LONG, true);
    }
  }

  lemma EmptyMarked(bmp: seq<nat>, full: seq<nat>)
    requires |full| == (|bmp| + LONG - 1) / LONG
    requires (forall w :: 0 <= w < |bmp| ==> bmp[w] == 0) && forall w :: 0 <= w < |full| ==> full[w] == 0
    ensures Marked(bmp, full) && forall i: nat :: i < |bmp| * LONG ==> !GetBit(bmp, i)
  {
    hide Bit, Pow;
    forall j: nat ensures !Bit(0, j) { NoBits(j); }
    LongPow();
  }

  lemma IsMarked(bmp: seq<nat>, full: seq<nat>)
    requires Marked(bmp, full)
    ensures Words(bmp) && |full| == (|bmp| + LONG - 1) / LONG
  {
  }

  lemma LongPow()
    ensures Pow(LONG) > 1
  {
    PowGrows(1, LONG);
  }

  lemma Appended(p: seq<nat>, j: nat)
    requires j < |p| * LONG + LONG
    ensures GetBit(p + [0], j) <==> j < |p| * LONG && GetBit(p, j)
  {
    if j >= |p| * LONG { NoBits(j % LONG); }
  }

  /** A word with a cleared bit is not all ones, and the other words are as before. */
  lemma ClearedNotFull(p: seq<nat>, nr: nat)
    requires Words(p) && nr < |p| * LONG
    ensures ClearBitIn(p, nr)[nr / LONG] != Pow(LONG) - 1
    ensures forall w :: 0 <= w < |p| && w != nr / LONG ==> ClearBitIn(p, nr)[w] == p[w]
  {
    hide Bit, ClearBit, Pow;
    ClearBitAt(p[nr / LONG], nr % LONG, nr % LONG);
    if ClearBit(p[nr / LONG], nr % LONG) == Pow(LONG) - 1 { FullHas(LONG, nr % LONG); }
  }
}
