/** Mapping and unmapping as operations on the flat map, and what they promise. */
module PageTableSpec {
  import opened PageTableModel

  /** Pages v .. v+n mapped to the frames p .. p+n. */
  function Mapped(flat: Flat, v: int, p: int, n: nat, a: Attr): Flat {
    if n == 0 then flat else Mapped(flat, v, p, n - 1, a)[v + n - 1 := Leaf(p + n - 1, a)]
  }

  /** Every page of the range translates to its frame, and no other translation changes. */
  lemma {:induction false} MappedPages(flat: Flat, v: int, p: int, n: nat, a: Attr)
    ensures forall u :: u in Mapped(flat, v, p, n, a) <==> u in flat || v <= u < v + n
    ensures forall u :: v <= u < v + n ==> Mapped(flat, v, p, n, a)[u] == Leaf(p + (u - v), a)
    ensures forall u <- flat :: !(v <= u < v + n) ==> Mapped(flat, v, p, n, a)[u] == flat[u]
  {
    if n > 0 { MappedPages(flat, v, p, n - 1, a); }
  }

  lemma {:induction false} MappedSize(flat: Flat, v: int, p: int, n: nat, a: Attr)
    requires Gone(flat, v, v + n)
    ensures |Mapped(flat, v, p, n, a)| == |flat| + n
  {
    if n > 0 {
      MappedSize(flat, v, p, n - 1, a);
      MappedPages(flat, v, p, n - 1, a);
    }
  }

  function Cut(flat: Flat, v: int): Flat { flat - {v} }

  /** Pages v .. v+n removed. */
  function Clear(flat: Flat, v: int, n: nat): Flat {
    if n == 0 then flat else Cut(Clear(flat, v, n - 1), v + n - 1)
  }

  lemma {:induction false} ClearPages(flat: Flat, v: int, n: nat)
    ensures forall u :: u in Clear(flat, v, n) <==> u in flat && !(v <= u < v + n)
    ensures forall u <- Clear(flat, v, n) :: Clear(flat, v, n)[u] == flat[u]
  {
    if n > 0 { ClearPages(flat, v, n - 1); }
  }

  /** Whether the table of level `d` on the way to `v` exists. */
  ghost predicate Present(flat: Flat, v: int, d: int) {
    Under(flat, At(v, d))
  }

  /** How many pages `unmap_range_in_pgtbl` skips when the descriptor of level `d` is missing. */
  function Gap(v: int, d: int): (g: int)
    requires 0 <= d <= 2
    ensures g > 0
  {
    if d == 0 then L1_SPAN - Index(v, 1) * L2_SPAN
    else if d == 1 then L2_SPAN - Index(v, 2) * L3_SPAN
    else L3_SPAN - Index(v, 3)
  }

  /** How many pages one pass over a last-level table covers. */
  function Pass(v: int, n: int): (g: int)
    requires n > 0
    ensures 0 < g <= n && g <= L3_SPAN - Index(v, 3)
  {
    if L3_SPAN - Index(v, 3) <= n then L3_SPAN - Index(v, 3) else n
  }

  /** The pages left mapped by `unmap_range_in_pgtbl`. */
  ghost function Unmapped(flat: Flat, v: int, n: int): Flat
    decreases n
  {
    if n <= 0 then flat
    else if !Present(flat, v, 1) then Unmapped(flat, v + Gap(v, 0), n - Gap(v, 0))
    else if !Present(flat, v, 2) then Unmapped(flat, v + Gap(v, 1), n - Gap(v, 1))
    else if !Present(flat, v, 3) then Unmapped(flat, v + Gap(v, 2), n - Gap(v, 2))
    else Unmapped(Clear(flat, v, Pass(v, n)), v + Pass(v, n), n - Pass(v, n))
  }

  /** Unmapping never touches a page outside the range. */
  lemma {:induction false} UnmapFrame(flat: Flat, v: int, n: int)
    ensures forall u <- Unmapped(flat, v, n) :: u in flat && Unmapped(flat, v, n)[u] == flat[u]
    ensures forall u <- flat :: u < v || v + n <= u ==> u in Unmapped(flat, v, n)
    decreases n
  {
    hide Present, Index, Up;
    if n <= 0 {
    } else if !Present(flat, v, 1) {
      UnmapFrame(flat, v + Gap(v, 0), n - Gap(v, 0));
    } else if !Present(flat, v, 2) {
      UnmapFrame(flat, v + Gap(v, 1), n - Gap(v, 1));
    } else if !Present(flat, v, 3) {
      UnmapFrame(flat, v + Gap(v, 2), n - Gap(v, 2));
    } else {
      ClearPages(flat, v, Pass(v, n));
      UnmapFrame(Clear(flat, v, Pass(v, n)), v + Pass(v, n), n - Pass(v, n));
    }
  }

  /** The range lies under one level-0 descriptor. */
  predicate OneL0(v: int, n: int) { Up(v, 1) == Up(v + n - 1, 1) }

  /** The range lies under one level-1 descriptor. */
  predicate OneL1(v: int, n: int) { Up(v, 2) == Up(v + n - 1, 2) }

  /** Ranges that every table tree unmaps completely. */
  predicate Clearable(v: int, n: int) {
    n <= 0 || (OneL0(v, n) && (v % L3_SPAN == 0 || OneL1(v, n)))
  }

  predicate Gone(flat: Flat, from: int, to: int) {
    forall u :: from <= u < to ==> u !in flat
  }

  ghost predicate Cleared(flat: Flat, v: int, n: int) {
    Gone(Unmapped(flat, v, n), v, v + n)
  }

  lemma Between(v: int, u: int, e: int, d: int)
    requires 0 <= v <= u <= e && 1 <= d <= 3 && Up(v, d) == Up(e, d)
    ensures Up(u, d) == Up(v, d)
  {
  }

  /** A missing table means that the whole of its span is unmapped. */
  lemma AbsentEmpty(flat: Flat, v: int, d: int, u: int)
    requires !Present(flat, v, d) && Up(u, d) == Up(v, d)
    ensures u !in flat
  {
  }

  /** The gap at level 1 or 2 ends at the next boundary when the lower indices are zero. */
  lemma GapLands(v: int)
    requires 0 <= v
    ensures Up(v, 3) == Up(v + Gap(v, 2) - 1, 3) && (v + Gap(v, 2)) % L3_SPAN == 0
    ensures v % L3_SPAN == 0 ==> Up(v, 2) == Up(v + Gap(v, 1) - 1, 2) && (v + Gap(v, 1)) % L3_SPAN == 0
  {
  }

  lemma PassLands(v: int, n: int)
    requires 0 <= v && n > 0
    ensures (v + Pass(v, n)) % L3_SPAN == 0 || Pass(v, n) == n
  {
  }

  lemma StillClearable(v: int, n: int, g: int)
    requires 0 <= v && Clearable(v, n) && 0 < g && ((v + g) % L3_SPAN == 0 || g == n || OneL1(v, n))
    ensures Clearable(v + g, n - g)
  {
    if g < n {
      Between(v, v + g, v + n - 1, 1);
      if OneL1(v, n) { Between(v, v + g, v + n - 1, 2); }
    }
  }

  /** Every page of such a range is unmapped. */
  lemma {:induction false} UnmapComplete(flat: Flat, v: int, n: int)
    requires 0 <= v && Clearable(v, n)
    ensures Cleared(flat, v, n)
    decreases n
  {
    hide Present, Index, Up, Clearable, Gap, Pass;
    if n <= 0 {
    } else if !Present(flat, v, 1) {
      SkipAll(flat, v, n, 1, Gap(v, 0));
    } else if !Present(flat, v, 2) {
      SkipLevel1(flat, v, n);
      if n > Gap(v, 1) { UnmapComplete(flat, v + Gap(v, 1), n - Gap(v, 1)); }
    } else if !Present(flat, v, 3) {
      GapLands(v);
      StillClearable(v, n, Gap(v, 2));
      UnmapComplete(flat, v + Gap(v, 2), n - Gap(v, 2));
      SkippedEmpty(flat, v, n, 3, Gap(v, 2));
    } else {
      var g := Pass(v, n);
      PassLands(v, n);
      StillClearable(v, n, g);
      UnmapComplete(Clear(flat, v, g), v + g, n - g);
      ClearPages(flat, v, g);
      UnmapFrame(Clear(flat, v, g), v + g, n - g);
    }
  }

  /** Nothing is mapped in a gap that stays under the missing descriptor. */
  lemma SkippedEmpty(flat: Flat, v: int, n: int, d: int, g: int)
    requires 0 <= v && 1 <= d <= 3 && !Present(flat, v, d) && 0 < g && Up(v, d) == Up(v + g - 1, d)
    ensures Gone(Unmapped(flat, v + g, n - g), v, v + g)
  {
    hide Present, Up;
    UnmapFrame(flat, v + g, n - g);
    forall u | v <= u < v + g ensures u !in flat {
      Between(v, u, v + g - 1, d);
      AbsentEmpty(flat, v, d, u);
    }
  }

  lemma SkipAll(flat: Flat, v: int, n: int, d: int, g: int)
    requires 0 <= v && Clearable(v, n) && n > 0 && (d == 1 || (d == 2 && OneL1(v, n))) && !Present(flat, v, d)
    ensures Gone(Unmapped(flat, v + g, n - g), v, v + n)
  {
    hide Present, Up;
    UnmapFrame(flat, v + g, n - g);
    forall u | v <= u < v + n ensures u !in flat {
      Between(v, u, v + n - 1, d);
      AbsentEmpty(flat, v, d, u);
    }
  }

  lemma SkipLevel1(flat: Flat, v: int, n: int)
    requires 0 <= v && Clearable(v, n) && n > 0 && !Present(flat, v, 2)
    ensures Clearable(v + Gap(v, 1), n - Gap(v, 1))
    ensures Gone(Unmapped(flat, v + Gap(v, 1), n - Gap(v, 1)), v, if n < Gap(v, 1) then v + n else v + Gap(v, 1))
  {
    hide Present, Index, Up, Gap;
    if v % L3_SPAN == 0 {
      GapLands(v);
      StillClearable(v, n, Gap(v, 1));
      SkippedEmpty(flat, v, n, 2, Gap(v, 1));
    } else {
      StillClearable(v, n, Gap(v, 1));
      SkipAll(flat, v, n, 2, Gap(v, 1));
    }
  }

  // ---- the other direction: any other range is left partly mapped in some table tree ----

  lemma Alone(flat: Flat, v: int, d: int)
    requires forall u <- flat :: Up(u, d) != Up(v, d)
    ensures !Present(flat, v, d)
  {
  }

  /** A page skipped over stays mapped. */
  lemma SkippedStays(flat: Flat, v: int, n: int, d: int, u: int)
    requires 0 <= d <= 2 && n > 0 && !Present(flat, v, d + 1) && (d >= 1 ==> Present(flat, v, 1))
      && (d == 2 ==> Present(flat, v, 2))
    requires u in flat && u < v + Gap(v, d)
    ensures u in Unmapped(flat, v, n)
  {
    hide Present, Gap;
    UnmapFrame(flat, v + Gap(v, d), n - Gap(v, d));
  }

  /** The first page under the next level-0 descriptor. */
  function NextL0(v: int): int { (Up(v, 1) + 1) * L1_SPAN }

  function NextL1(v: int): int { (Up(v, 2) + 1) * L2_SPAN }

  lemma NextL0Lies(v: int, n: int)
    requires 0 <= v && n > 0 && !OneL0(v, n)
    ensures v < NextL0(v) < v + n && Up(NextL0(v), 1) != Up(v, 1)
  {
  }

  /** From an unaligned address the first gap reaches beyond the next level-0 boundary. */
  lemma GapOvershoots(v: int)
    requires 0 <= v && v % L2_SPAN != 0
    ensures NextL0(v) < v + Gap(v, 0)
  {
  }

  /** From an aligned address, so does the gap after one last-level table. */
  lemma NextGapOvershoots(v: int)
    requires 0 <= v && v % L2_SPAN == 0
    ensures Up(v + L3_SPAN, 1) == Up(v, 1) && v + L3_SPAN < NextL0(v) < v + L3_SPAN + Gap(v + L3_SPAN, 0)
  {
    assert v / L2_SPAN * L2_SPAN == v;
  }

  lemma CrossUnaligned(v: int, n: int, a: Leaf)
    requires 0 <= v && n > 0 && !OneL0(v, n) && v % L2_SPAN != 0
    ensures NextL0(v) in Unmapped(map[NextL0(v) := a], v, n)
  {
    hide Up, Gap, NextL0, Unmapped, Present;
    NextL0Lies(v, n);
    GapOvershoots(v);
    Alone(map[NextL0(v) := a], v, 1);
    SkippedStays(map[NextL0(v) := a], v, n, 0, NextL0(v));
  }

  lemma OnWay(flat: Flat, v: int, d: int)
    requires v in flat
    ensures Present(flat, v, d)
  {
  }

  lemma WholePass(v: int, n: int)
    requires 0 <= v && v % L2_SPAN == 0 && n > L3_SPAN
    ensures Pass(v, n) == L3_SPAN
  {
  }

  lemma CrossAligned(v: int, n: int, a: Leaf)
    requires 0 <= v && n > 0 && !OneL0(v, n) && v % L2_SPAN == 0
    ensures NextL0(v) in Unmapped(map[v := a, NextL0(v) := a], v, n)
  {
    hide Up, Gap, NextL0, Present, Pass;
    NextL0Lies(v, n);
    NextGapOvershoots(v);
    WholePass(v, n);
    var b := NextL0(v);
    var flat := map[v := a, b := a];
    OnWay(flat, v, 1);
    OnWay(flat, v, 2);
    OnWay(flat, v, 3);
    var flat' := Clear(flat, v, L3_SPAN);
    ClearPages(flat, v, L3_SPAN);
    Alone(flat', v + L3_SPAN, 1);
    SkippedStays(flat', v + L3_SPAN, n - L3_SPAN, 0, b);
  }

  lemma CrossL1(v: int, n: int, a: Leaf)
    requires 0 <= v && n > 0 && OneL0(v, n) && !OneL1(v, n) && v % L3_SPAN != 0
    ensures v < NextL1(v) < v + n && NextL1(v) in Unmapped(map[NextL1(v) := a], v, n)
  {
    var b := NextL1(v);
    var flat := map[b := a];
    Between(v, b, v + n - 1, 1);
    assert Present(flat, v, 1) by { assert b in flat; }
    Alone(flat, v, 2);
    SkippedStays(flat, v, n, 1, b);
  }

  /** Exactly these ranges are unmapped completely whatever is mapped. */
  lemma UnmapCompleteIff(v: int, n: int)
    requires 0 <= v && v + n <= PAGES
    ensures Clearable(v, n) <==> forall flat: Flat :: InSpace(flat) ==> Cleared(flat, v, n)
  {
    hide Up, Present, Gap, Pass, Unmapped, NextL0, NextL1;
    if Clearable(v, n) {
      forall flat: Flat ensures Cleared(flat, v, n) { UnmapComplete(flat, v, n); }
    } else {
      var a := Leaf(0, Attr(0, 0, 0, 0, 0, 0, 0, 0));
      var flat: Flat;
      var u;
      if !OneL0(v, n) {
        NextL0Lies(v, n);
        u := NextL0(v);
        if v % L2_SPAN != 0 {
          CrossUnaligned(v, n, a);
          flat := map[u := a];
        } else {
          CrossAligned(v, n, a);
          flat := map[v := a, u := a];
        }
      } else {
        CrossL1(v, n, a);
        u := NextL1(v);
        flat := map[u := a];
      }
      assert u in Unmapped(flat, v, n) && v <= u < v + n;
      assert InSpace(flat) && !Cleared(flat, v, n);
    }
  }

  /** Mapping a fresh range and unmapping it again restores the flat map. */
  lemma MapThenUnmap(flat: Flat, v: int, p: int, n: nat, a: Attr)
    requires 0 <= v && Clearable(v, n) && Gone(flat, v, v + n)
    ensures Unmapped(Mapped(flat, v, p, n, a), v, n) == flat
  {
    hide Present, Up, Clearable, Unmapped;
    var m := Mapped(flat, v, p, n, a);
    MappedPages(flat, v, p, n, a);
    UnmapComplete(m, v, n);
    UnmapFrame(m, v, n);
    var r := Unmapped(m, v, n);
    forall u ensures u in r <==> u in flat { }
    assert forall u <- r :: r[u] == flat[u];
  }
}
