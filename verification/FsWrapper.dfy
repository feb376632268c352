/** The page-wise read loop and the block-wise write loop of the file server (`fs_wrapper_ops.c`). */
module FsWrapper {
  import opened PageCache

  ghost function ByteOf(d: Content, o: int): int {
    if IsContent(d) && 0 <= o < PAGE then d[o / BLOCK][o % BLOCK] else 0
  }

  /** Byte `o` of the page named `x`, as users see it. */
  ghost function ByteAt(pages: Pages, disk: Store, x: int, o: int): int {
    if x in disk then ByteOf(Logical(pages, disk, x), o) else 0
  }

  /** The position of byte `o` of page `x` in the file whose first page is `base`. */
  function Pos(base: int, x: int, o: int): int { (x - base) * PAGE + o }

  /** Byte `pos` of the file whose first page is `base`. */
  ghost function FileByte(pages: Pages, disk: Store, base: int, pos: int): int {
    ByteAt(pages, disk, base + pos / PAGE, pos % PAGE)
  }

  /** The pages that a range of the file touches can be got. */
  ghost predicate Reachable(disk: Store, pinned: seq<int>, base: int, offset: int, size: int) {
    forall x :: offset / PAGE <= x - base && (x - base) * PAGE < offset + size ==> x in disk && x !in pinned
  }

  lemma ReachableAt(disk: Store, pinned: seq<int>, base: int, offset: nat, size: nat, pos: nat)
    requires Reachable(disk, pinned, base, offset, size) && offset <= pos < offset + size
    ensures base + pos / PAGE in disk && base + pos / PAGE !in pinned
  {
    assert (base + pos / PAGE - base) * PAGE <= pos;
  }

  function Min(a: int, b: int): int { if a < b then a else b }

  /** `memcpy` out of a cached page */
  method CopyOut(content: Content, off: nat, n: nat, buf: array<int>, at: nat)
    requires IsContent(content) && off + n <= PAGE && at + n <= buf.Length
    modifies buf
    ensures forall i :: at <= i < at + n ==> buf[i] == ByteOf(content, off + i - at)
    ensures forall i :: 0 <= i < buf.Length && !(at <= i < at + n) ==> buf[i] == old(buf[i])
  {
    var k := 0;
    while k < n
      invariant 0 <= k <= n
      invariant forall i :: at <= i < at + k ==> buf[i] == ByteOf(content, off + i - at)
      invariant forall i :: 0 <= i < buf.Length && !(at <= i < at + k) ==> buf[i] == old(buf[i])
    {
      buf[at + k] := content[(off + k) / BLOCK][(off + k) % BLOCK];
      k := k + 1;
    }
  }

  lemma SameBytes(p: Pages, d: Store, p': Pages, d': Store, base: int)
    requires SameFile(p, d, p', d')
    ensures d'.Keys == d.Keys && forall pos :: FileByte(p', d', base, pos) == FileByte(p, d, base, pos)
  {
    hide ByteOf;
  }

  // ---- the file position in a 32-bit integer ----

  const LIMIT := 0x8000_0000            // the first position an `int` does not hold
  const OFF_MAX := 0x8000_0000_0000_0000
  const READ_SIZE_MAX := 0x7fff_f000

  /** Conversion to `int` */
  function ToInt(x: int): (r: int)
    ensures -LIMIT <= r < LIMIT && (0 <= x < LIMIT ==> r == x)
  {
    (x + LIMIT) % (2 * LIMIT) - LIMIT
  }

  /** Conversion to `unsigned long` */
  function ToUnsigned(x: int): int { x % (2 * OFF_MAX) }

  /** How many bytes of a range at `offset` the loops reach. */
  function Served(offset: nat, size: nat): nat {
    if offset >= LIMIT then 0 else Min(size, LIMIT - offset)
  }

  /** The loops start at a position before the offset, outside the caller's buffer. */
  predicate Escapes(offset: nat) { offset >= LIMIT && offset % (2 * LIMIT) < LIMIT }

  predicate Complete(offset: nat, size: nat) { !Escapes(offset) && Served(offset, size) == size }

  /** A range is served completely exactly when it ends within the first 2 GiB. */
  lemma CompleteIff(offset: nat, size: nat)
    ensures size > 0 ==> (Complete(offset, size) <==> offset + size <= LIMIT)
    ensures size == 0 ==> (Complete(offset, size) <==> offset < LIMIT || LIMIT <= offset % (2 * LIMIT))
  {
    if LIMIT <= offset < 2 * LIMIT { assert offset % (2 * LIMIT) == offset; }
  }

  /** One byte at 4 GiB: the loop starts at the first byte of the file instead. */
  lemma FourGiB()
    ensures Escapes(2 * LIMIT) && ToInt(2 * LIMIT) == 0 && !Complete(2 * LIMIT, 1)
  {
  }

  /** From 2 GiB on nothing is served, and a range across 2 GiB loses its tail. */
  lemma TwoGiB(offset: nat, size: nat)
    requires size > 0
    ensures LIMIT <= offset < 2 * LIMIT ==> !Escapes(offset) && Served(offset, size) == 0
    ensures offset < LIMIT < offset + size ==> !Escapes(offset) && Served(offset, size) == LIMIT - offset < size
  {
    if LIMIT <= offset < 2 * LIMIT { assert offset % (2 * LIMIT) == offset; }
  }

  /** Where the loops start, and when they start at all. */
  lemma Starts(offset: nat, size: nat)
    requires offset < OFF_MAX && size <= READ_SIZE_MAX
    ensures offset >= LIMIT ==> (ToUnsigned(ToInt(offset)) < offset + size <==> Escapes(offset))
    ensures Escapes(offset) ==> 0 <= ToInt(offset) < offset
  {
    hide ToUnsigned;
    var m := offset % (2 * LIMIT);
    assert (offset + LIMIT) % (2 * LIMIT) == if m < LIMIT then m + LIMIT else m - LIMIT;
    Unsigned(ToInt(offset));
  }

  /** A negative position compares as a huge one. */
  lemma Unsigned(f: int)
    requires -LIMIT <= f < LIMIT
    ensures f >= 0 ==> ToUnsigned(f) == f
    ensures f < 0 ==> ToUnsigned(f) == f + 2 * OFF_MAX && ToUnsigned(f) >= OFF_MAX + 2 * LIMIT
  {
    if f < 0 { assert f % (2 * OFF_MAX) == (f + 2 * OFF_MAX) % (2 * OFF_MAX); }
  }

  /** A loop over units of `u` bytes stands at `f`, has done `ret` bytes and may have overflowed. */
  ghost predicate Standing(offset: nat, size: nat, u: nat, f: int, ret: int, overflow: bool) {
    && -LIMIT <= f < LIMIT && u > 0 && 0 <= ret <= size
    && (offset >= LIMIT ==> f == ToInt(offset) && ret == 0 && !overflow)
    && (offset < LIMIT ==> overflow == (f < 0))
    && (offset < LIMIT && !overflow ==>
       offset <= f && ret == Min(f, offset + size) - offset && (f == offset || f % u == 0))
    && (overflow ==> f == -LIMIT && ret == Served(offset, size) > 0 && offset + ret > LIMIT - u)
  }

  /** The next unit starts at most one unit further, on a boundary. */
  lemma NextUnit(f: nat, u: nat)
    requires f < LIMIT && (u == PAGE || u == BLOCK)
    ensures var next := f / u * u + u;
      next % u == 0 && f < next == f + u - f % u <= LIMIT && 0 <= f % u < u
  {
  }

  /** The step to the next unit. */
  lemma Advance(offset: nat, size: nat, u: nat, f: int, ret: int)
    requires offset < LIMIT && Standing(offset, size, u, f, ret, false) && f < offset + size
      && (u == PAGE || u == BLOCK)
    ensures var n, next := Min(u - f % u, offset + size - f), f / u * u + u;
      && n > 0 && ret == f - offset && Standing(offset, size, u, ToInt(next), ret + n, next >= LIMIT)
      && f < next && (next < LIMIT ==> ToInt(next) == next) && (next >= LIMIT ==> ToInt(next) < 0)
  {
    NextUnit(f, u);
    assert ToInt(LIMIT) == -LIMIT;
  }

  lemma Finished(offset: nat, size: nat, u: nat, f: int, ret: int, overflow: bool)
    requires Standing(offset, size, u, f, ret, overflow) && ToUnsigned(f) >= offset + size && (u == PAGE || u == BLOCK)
    requires offset < OFF_MAX && size <= READ_SIZE_MAX
    ensures ret == Served(offset, size)
    ensures overflow <==> Served(offset, size) > 0 && offset + Served(offset, size) > LIMIT - u
    ensures !Escapes(offset)
  {
    Unsigned(f);
    Starts(offset, size);
  }

  /** One round of the read loop: get, copy and put one page. */
  method ReadUnit(cache: Cache, base: int, fptr: nat, n: nat, buf: array<int>, at: nat)
    requires cache.Valid() && fptr % PAGE + n <= PAGE && at + n <= buf.Length
    requires base + fptr / PAGE in cache.disk && base + fptr / PAGE !in cache.pinned
    modifies cache, buf
    ensures cache.Valid() && cache.pinned == old(cache.pinned)
      && SameFile(old(cache.pages), old(cache.disk), cache.pages, cache.disk)
    ensures forall i :: at <= i < at + n ==>
      buf[i] == old(FileByte(cache.pages, cache.disk, base, fptr + i - at))
    ensures forall i :: 0 <= i < buf.Length && !(at <= i < at + n) ==> buf[i] == old(buf[i])
  {
    hide AllCoherent, Placed, SameFile, ByteOf, Logical, IsContent;
    ghost var pages, disk := cache.pages, cache.disk;
    var content := cache.ReadPage(base + fptr / PAGE);
    CopyOut(content, fptr % PAGE, n, buf, at);
    forall i | at <= i < at + n ensures buf[i] == FileByte(pages, disk, base, fptr + i - at) {
      SamePage(fptr, fptr + i - at);
    }
  }

  /** The read loop of `fs_wrapper_read`: exactly the bytes of the range below 2 GiB, in order. `wild`
  says that the copy would leave the buffer, `overflow` that the position overflows at the last step. */
  method Read(cache: Cache, base: int, offset: nat, size: nat, buf: array<int>)
    returns (ret: nat, wild: bool, overflow: bool)
    requires cache.Valid() && offset < OFF_MAX && size <= READ_SIZE_MAX && buf.Length >= size
    requires Reachable(cache.disk, cache.pinned, base, offset, Served(offset, size))
    modifies cache, buf
    ensures cache.Valid() && SameFile(old(cache.pages), old(cache.disk), cache.pages, cache.disk)
    ensures (wild <==> Escapes(offset)) && ret == Served(offset, size)
    ensures overflow <==> ret > 0 && offset + ret > LIMIT - PAGE
    ensures forall i :: 0 <= i < ret ==> buf[i] == old(FileByte(cache.pages, cache.disk, base, offset + i))
    ensures forall i :: ret <= i < buf.Length ==> buf[i] == old(buf[i])
  {
    hide AllCoherent, Placed, SameFile, ByteOf, Logical, IsContent, ToInt, ToUnsigned, Standing, Escapes, FileByte,
      Reachable;
    SameFileSelf(cache.pages, cache.disk);
    ghost var pages, disk := cache.pages, cache.disk;
    ret, wild, overflow := 0, false, false;
    var fptr := ToInt(offset);
    StandingFirst(offset, size, PAGE);
    while ToUnsigned(fptr) < offset + size
      invariant Standing(offset, size, PAGE, fptr, ret, overflow) && !wild && ret <= size
      invariant cache.Valid() && cache.pinned == old(cache.pinned) && SameFile(pages, disk, cache.pages, cache.disk)
      invariant forall i :: 0 <= i < ret ==> buf[i] == FileByte(pages, disk, base, offset + i)
      invariant forall i :: ret <= i < buf.Length ==> buf[i] == old(buf[i])
      decreases if fptr < 0 then 0 else LIMIT - fptr
    {
      Goes(offset, size, PAGE, fptr, ret, overflow);
      if fptr < offset { return 0, true, false; }
      Advance(offset, size, PAGE, fptr, ret);
      var n := Min(PAGE - fptr % PAGE, offset + size - fptr);
      ghost var p, d := cache.pages, cache.disk;
      SameBytes(pages, disk, p, d, base);
      ReachableAt(disk, cache.pinned, base, offset, Served(offset, size), fptr);
      ReadUnit(cache, base, fptr, n, buf, fptr - offset);
      SameFileTrans(pages, disk, p, d, cache.pages, cache.disk);
      ret := ret + n;
      overflow := fptr / PAGE * PAGE + PAGE >= LIMIT;
      fptr := ToInt(fptr / PAGE * PAGE + PAGE);
    }
    Finished(offset, size, PAGE, fptr, ret, overflow);
  }

  lemma StandingFirst(offset: nat, size: nat, u: nat)
    requires u > 0
    ensures Standing(offset, size, u, ToInt(offset), 0, false)
  {
  }

  /** What holds when the loop goes on. */
  lemma Goes(offset: nat, size: nat, u: nat, f: int, ret: int, overflow: bool)
    requires Standing(offset, size, u, f, ret, overflow) && ToUnsigned(f) < offset + size
    requires offset < OFF_MAX && size <= READ_SIZE_MAX
    ensures 0 <= f < offset + size && !overflow
    ensures f < offset <==> offset >= LIMIT
    ensures offset >= LIMIT ==> Escapes(offset) && Served(offset, size) == 0 == ret
    ensures offset < LIMIT ==> ret == f - offset && f < LIMIT && f < offset + Served(offset, size)
  {
    Unsigned(f);
    Starts(offset, size);
  }

  lemma SamePage(a: nat, b: nat)
    requires a <= b && a % PAGE + (b - a) < PAGE
    ensures b / PAGE == a / PAGE && b % PAGE == a % PAGE + (b - a)
  {
  }

  /** What a byte is after the first `n` bytes of `data` were written at `offset`. */
  ghost function Written(pages: Pages, disk: Store, base: int, offset: int, data: seq<int>, n: int, x: int, o: int): int
    requires 0 <= n <= |data|
  {
    var p := Pos(base, x, o);
    if offset <= p < offset + n then data[p - offset] else ByteAt(pages, disk, x, o)
  }

  ghost predicate WrittenTo(pages: Pages, disk: Store, base: int, offset: int, data: seq<int>, n: int, pages': Pages,
    disk': Store)
    requires 0 <= n <= |data|
  {
    && disk'.Keys == disk.Keys
    && forall x, o :: x in disk && 0 <= o < PAGE ==>
       ByteAt(pages', disk', x, o) == Written(pages, disk, base, offset, data, n, x, o)
  }

  lemma SplicedBytes(d: Content, j: int, off: int, bytes: seq<int>, o: int)
    requires IsContent(d) && 0 <= j < BLOCKS && 0 <= off && off + |bytes| <= BLOCK && 0 <= o < PAGE
    ensures IsContent(d[j := Spliced(d[j], off, bytes)])
    ensures ByteOf(d[j := Spliced(d[j], off, bytes)], o)
      == if j * BLOCK + off <= o < j * BLOCK + off + |bytes| then bytes[o - j * BLOCK - off] else ByteOf(d, o)
  {
  }

  /** One block write moves the written range on. */
  lemma WriteMore(pages: Pages, disk: Store, base: int, offset: nat, data: seq<int>, n: nat, p: Pages, d: Store,
                  x: int, j: int, off: int, m: nat, p': Pages, d': Store)
    requires n + m <= |data| && WrittenTo(pages, disk, base, offset, data, n, p, d) && x in d && d'.Keys == d.Keys
    requires 0 <= j < BLOCKS && 0 <= off && off + m <= BLOCK && Pos(base, x, j * BLOCK + off) == offset + n
    requires IsContent(Logical(p, d, x))
      && Logical(p', d', x) == Logical(p, d, x)[j := Spliced(Logical(p, d, x)[j], off, data[n..n + m])]
    requires forall y <- d' :: y != x ==> Logical(p', d', y) == Logical(p, d, y)
    ensures WrittenTo(pages, disk, base, offset, data, n + m, p', d')
  {
    hide IsContent, ByteOf, Logical, Spliced;
    forall y, o | y in disk && 0 <= o < PAGE
      ensures ByteAt(p', d', y, o) == Written(pages, disk, base, offset, data, n + m, y, o)
    {
      assert ByteAt(p, d, y, o) == Written(pages, disk, base, offset, data, n, y, o);
      if y == x { SplicedBytes(Logical(p, d, x), j, off, data[n..n + m], o); }
    }
  }

  /** The write loop of `fs_wrapper_write`, the file being long enough: exactly the bytes of the range
  below 2 GiB change. `wild` says that the copy would start outside the data, `overflow` that the
  position overflows at the last step. */
  method Write(cache: Cache, base: int, offset: nat, data: seq<int>) returns (ret: nat, wild: bool, overflow: bool)
    requires cache.Valid() && offset < OFF_MAX && |data| <= READ_SIZE_MAX
    requires Reachable(cache.disk, cache.pinned, base, offset, Served(offset, |data|))
    modifies cache
    ensures cache.Valid() && (wild <==> Escapes(offset)) && ret == Served(offset, |data|)
    ensures overflow <==> ret > 0 && offset + ret > LIMIT - BLOCK
    ensures WrittenTo(old(cache.pages), old(cache.disk), base, offset, data, ret, cache.pages, cache.disk)
  {
    hide AllCoherent, Placed, ByteOf, Logical, IsContent, WrittenTo, Spliced, ToInt, ToUnsigned, Standing, Escapes,
      Reachable;
    ghost var pages, disk := cache.pages, cache.disk;
    WrittenNone(pages, disk, base, offset, data);
    ret, wild, overflow := 0, false, false;
    var fptr := ToInt(offset);
    StandingFirst(offset, |data|, BLOCK);
    while ToUnsigned(fptr) < offset + |data|
      invariant Standing(offset, |data|, BLOCK, fptr, ret, overflow) && !wild && 0 <= ret <= |data|
      invariant cache.Valid() && cache.pinned == old(cache.pinned) && cache.disk.Keys == disk.Keys
      invariant WrittenTo(pages, disk, base, offset, data, ret, cache.pages, cache.disk)
      invariant offset >= LIMIT ==> cache.pages == pages && cache.disk == disk && ret == 0
      decreases if fptr < 0 then 0 else LIMIT - fptr
    {
      Goes(offset, |data|, BLOCK, fptr, ret, overflow);
      if fptr < offset { return 0, true, false; }
      Advance(offset, |data|, BLOCK, fptr, ret);
      var x := base + fptr / PAGE;
      var j := fptr % PAGE / BLOCK;
      var off := fptr % BLOCK;
      var n := Min(BLOCK - off, offset + |data| - fptr);
      BlockPos(base, fptr);
      ghost var p, d := cache.pages, cache.disk;
      ReachableAt(disk, cache.pinned, base, offset, Served(offset, |data|), fptr);
      cache.WriteBlock(x, j, off, data[fptr - offset..fptr - offset + n]);
      WriteMore(pages, disk, base, offset, data, ret, p, d, x, j, off, n, cache.pages, cache.disk);
      ret := ret + n;
      overflow := fptr / BLOCK * BLOCK + BLOCK >= LIMIT;
      fptr := ToInt(fptr / BLOCK * BLOCK + BLOCK);
    }
    Finished(offset, |data|, BLOCK, fptr, ret, overflow);
  }

  lemma BlockPos(base: int, f: nat)
    ensures Pos(base, base + f / PAGE, f % PAGE / BLOCK * BLOCK + f % BLOCK) == f && 0 <= f % PAGE / BLOCK < BLOCKS
  {
  }

  lemma WrittenNone(pages: Pages, disk: Store, base: int, offset: int, data: seq<int>)
    ensures WrittenTo(pages, disk, base, offset, data, 0, pages, disk)
  {
  }
}
