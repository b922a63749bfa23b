/** Region layout and per-slot arena arithmetic (`types.rs`). */
module Layout {
  import opened Bytes

  const SHM_MAGIC := 0x534C4231
  const SHM_VERSION := 2
  const SLOT_META_SIZE := 128
  const SHM_HEADER_SIZE := 64
  const MAX_OVERFLOW_GENERATION := 254

  /** The five slot states. `SLOT_WRITING` is a state of its own, numbered last. */
  datatype Status = Free | Ready | Claimed | Done | Writing

  function StatusWord(st: Status): (w: nat) {
    match st
    case Free => 0
    case Ready => 1
    case Claimed => 2
    case Done => 3
    case Writing => 4
  }

  /** Which half of a slot is meant: the request the hub writes or the response the worker writes. */
  datatype Dir = Req | Rsp

  /** What a peer knows of a control region after init or validate. */
  datatype Geometry = Geometry(numSlots: nat, heapOffset: nat, heapSize: nat)

  predicate Sound(g: Geometry) {
    && g.numSlots > 0
    && g.heapOffset == SHM_HEADER_SIZE + g.numSlots * SLOT_META_SIZE
    && g.heapSize < U32
  }

  function MappedSize(g: Geometry): nat {
    g.heapOffset + g.heapSize
  }

  /** `n & !7` */
  function Floor8(n: nat): nat {
    n / 8 * 8
  }

  /** `(n + 7) & !7` */
  function Align8(n: nat): nat {
    Floor8(n + 7)
  }

  function SaturatingSub(a: nat, b: nat): nat {
    if a < b then 0 else a - b
  }

  function ComputeLayout(numSlots: nat, regionSize: nat): Geometry {
    var heapOffset := SHM_HEADER_SIZE + numSlots * SLOT_META_SIZE;
    Geometry(numSlots, heapOffset, SaturatingSub(regionSize, heapOffset))
  }

  function ArenaSize(numSlots: nat, heapSize: nat): nat {
    if numSlots == 0 then 0 else Floor8(heapSize / numSlots)
  }

  /** Heap-relative start of the request or response half of slot `i`. */
  function ArenaBase(g: Geometry, dir: Dir, i: nat): nat {
    var arena := ArenaSize(g.numSlots, g.heapSize);
    var half := Floor8(arena / 2);
    match dir
    case Req => i * arena
    case Rsp => i * arena + half
  }

  function ArenaLen(g: Geometry, dir: Dir): nat {
    var arena := ArenaSize(g.numSlots, g.heapSize);
    var half := Floor8(arena / 2);
    match dir
    case Req => half
    case Rsp => arena - half
  }

  function ArenaEnd(g: Geometry, dir: Dir, i: nat): nat {
    ArenaBase(g, dir, i) + ArenaLen(g, dir)
  }

  function SlotBase(i: nat): nat {
    SHM_HEADER_SIZE + i * SLOT_META_SIZE
  }

  /** Largest body promised to fit beside `metaLen` bytes of metadata in either direction. */
  function InlineBodyCapacity(g: Geometry, metaLen: nat): nat {
    var req, rsp := ArenaLen(g, Req), ArenaLen(g, Rsp);
    SaturatingSub(if req < rsp then req else rsp, Align8(metaLen))
  }

  /** Where a body goes in an arena that already holds `metaLen` bytes, or None when it spills.
      The cast of the offset to u32 is exact for every sound geometry, whose heap is below 2^32. */
  function ArenaBodyOffset(base: nat, size: nat, metaLen: nat, bodyLen: nat): Option<nat> {
    var start := base + Align8(metaLen);
    var end := start + bodyLen;
    if end < USIZE && end <= base + size then Some(start) else None
  }

  function OverflowGeneration(marker: nat): Option<nat> {
    if marker == 0 then None else Some(marker - 1)
  }

  // ---- What is stored -----------------------------------------------------------------

  /** The numbers that peers in other languages rely on: five distinct status words, the magic and the
      version, and sizes. */
  lemma WireNumbers()
    ensures StatusWord(Free) == 0 && StatusWord(Ready) == 1 && StatusWord(Claimed) == 2 && StatusWord(Done) == 3
            && StatusWord(Writing) == 4
    ensures forall st, st' :: StatusWord(st) == StatusWord(st') ==> st == st'
    ensures SHM_MAGIC == 0x534C4231 && SHM_VERSION == 2
  {
  }

  /** A generation can be encoded exactly if its marker fits a byte; every marker but 0 names one. */
  lemma Markers(gen: nat)
    ensures gen <= MAX_OVERFLOW_GENERATION <==> gen + 1 < 256
    ensures OverflowGeneration(0) == None && OverflowGeneration(gen + 1) == Some(gen)
  {
  }

  /** `Align8` is the least multiple of 8 that is not below, `Floor8` the greatest that is not above. */
  lemma AlignExact(n: nat)
    ensures Align8(n) % 8 == 0 && Align8(n) >= n && Floor8(n) % 8 == 0 && Floor8(n) <= n
    ensures forall m: nat :: m % 8 == 0 && m >= n ==> Align8(n) <= m
    ensures forall m: nat :: m % 8 == 0 && m <= n ==> m <= Floor8(n)
  {
  }

  // ---- Arena geometry ----------------------------------------------------------------

  lemma ArenaFitsHeap(numSlots: nat, heapSize: nat)
    requires numSlots > 0
    ensures numSlots * ArenaSize(numSlots, heapSize) <= heapSize
    ensures heapSize - numSlots * ArenaSize(numSlots, heapSize) <= 8 * numSlots - 1
  {
    var q := heapSize / numSlots;
    var arena := ArenaSize(numSlots, heapSize);
    assert heapSize == numSlots * q + heapSize % numSlots;
    Rounding(q);
    assert arena == Floor8(q);
    MulMono(arena, q, numSlots);
    MulMono(q, arena + 7, numSlots);
    assert (arena + 7) * numSlots == arena * numSlots + 7 * numSlots;
  }

  lemma Rounding(n: nat)
    ensures Floor8(n) <= n <= Floor8(n) + 7
    ensures Floor8(n) % 8 == 0
    ensures n % 8 == 0 ==> Floor8(n) == n
  {
  }

  /** Every arena half lies inside the heap. */
  lemma ArenaInHeap(g: Geometry, dir: Dir, i: nat)
    requires i < g.numSlots
    ensures ArenaEnd(g, dir, i) <= g.heapSize
  {
    var arena := ArenaSize(g.numSlots, g.heapSize);
    ArenaFitsHeap(g.numSlots, g.heapSize);
    MulMono(i + 1, g.numSlots, arena);
    assert (i + 1) * arena == i * arena + arena;
  }

  /** Distinct (slot, direction) pairs own disjoint arena halves. */
  lemma ArenasDisjoint(g: Geometry, dir: Dir, i: nat, dir': Dir, i': nat)
    requires i < g.numSlots && i' < g.numSlots
    requires dir != dir' || i != i'
    ensures ArenaEnd(g, dir, i) <= ArenaBase(g, dir', i') || ArenaEnd(g, dir', i') <= ArenaBase(g, dir, i)
  {
    var arena := ArenaSize(g.numSlots, g.heapSize);
    if i < i' {
      MulMono(i + 1, i', arena);
      assert (i + 1) * arena == i * arena + arena;
    } else if i' < i {
      MulMono(i' + 1, i, arena);
      assert (i' + 1) * arena == i' * arena + arena;
    }
  }

  /** The 2 * numSlots halves tile the heap from offset 0 without gap or overlap, every base is
      8-aligned, and fewer than 8 bytes per slot are left over at the end. */
  lemma ArenaGeometry(g: Geometry)
    requires g.numSlots > 0
    ensures ArenaBase(g, Req, 0) == 0
    ensures forall i: nat :: ArenaEnd(g, Req, i) == ArenaBase(g, Rsp, i)
    ensures forall i: nat, j: nat :: j == i + 1 ==> ArenaEnd(g, Rsp, i) == ArenaBase(g, Req, j)
    ensures ArenaEnd(g, Rsp, g.numSlots - 1) <= g.heapSize <= ArenaEnd(g, Rsp, g.numSlots - 1) + 8 * g.numSlots - 1
    ensures forall dir, i: nat :: ArenaBase(g, dir, i) % 8 == 0
    ensures forall dir, i: nat :: i < g.numSlots ==> ArenaEnd(g, dir, i) <= g.heapSize
    ensures forall dir, dir', i: nat, i': nat :: i < g.numSlots && i' < g.numSlots && (dir != dir' || i != i') ==>
              ArenaEnd(g, dir, i) <= ArenaBase(g, dir', i') || ArenaEnd(g, dir', i') <= ArenaBase(g, dir, i)
  {
    var arena := ArenaSize(g.numSlots, g.heapSize);
    forall i: nat, j: nat | j == i + 1 ensures ArenaEnd(g, Rsp, i) == ArenaBase(g, Req, j) {
      assert (i + 1) * arena == i * arena + arena;
    }
    ArenaFitsHeap(g.numSlots, g.heapSize);
    assert (g.numSlots - 1) * arena + arena == g.numSlots * arena;
    forall dir, i: nat ensures ArenaBase(g, dir, i) % 8 == 0 {
      BaseAligned(g, dir, i);
    }
    forall dir, i: nat | i < g.numSlots ensures ArenaEnd(g, dir, i) <= g.heapSize {
      ArenaInHeap(g, dir, i);
    }
    forall dir, dir', i: nat, i': nat | i < g.numSlots && i' < g.numSlots && (dir != dir' || i != i')
      ensures ArenaEnd(g, dir, i) <= ArenaBase(g, dir', i') || ArenaEnd(g, dir', i') <= ArenaBase(g, dir, i)
    {
      ArenasDisjoint(g, dir, i, dir', i');
    }
  }

  lemma BaseAligned(g: Geometry, dir: Dir, i: nat)
    ensures ArenaBase(g, dir, i) % 8 == 0
  {
    var arena := ArenaSize(g.numSlots, g.heapSize);
    var q := arena / 8;
    assert arena == q * 8;
    assert i * arena == (i * q) * 8;
    assert ArenaBase(g, Req, i) == (i * q) * 8;
    assert ArenaBase(g, Rsp, i) == (i * q + arena / 2 / 8) * 8;
  }

  /** Header, slot table and heap do not overlap, and slots do not overlap each other. */
  lemma RegionsDisjoint(g: Geometry, i: nat, i': nat)
    requires Sound(g) && i < g.numSlots && i' < g.numSlots
    ensures SHM_HEADER_SIZE <= SlotBase(i)
    ensures SlotBase(i) + SLOT_META_SIZE <= g.heapOffset
    ensures i != i' ==> SlotBase(i) + SLOT_META_SIZE <= SlotBase(i') || SlotBase(i') + SLOT_META_SIZE <= SlotBase(i)
  {
  }

  /** The response half is as large as the request half, or 8 bytes larger. */
  lemma HalvesDiffer(g: Geometry)
    ensures ArenaLen(g, Rsp) - ArenaLen(g, Req) == 0 || ArenaLen(g, Rsp) - ArenaLen(g, Req) == 8
    ensures ArenaLen(g, Req) % 8 == 0
  {
    hide ArenaSize, Floor8;
    var arena := ArenaSize(g.numSlots, g.heapSize);
    ArenaAligned(g.numSlots, g.heapSize);
    Rounding(arena / 2);
    HalfDifference(arena);
  }

  lemma ArenaAligned(numSlots: nat, heapSize: nat)
    ensures ArenaSize(numSlots, heapSize) % 8 == 0
    ensures numSlots == 0 ==> ArenaSize(numSlots, heapSize) == 0
  {
    if numSlots > 0 {
      Rounding(heapSize / numSlots);
    }
  }

  /** A non-empty request body beside fitting metadata is inline exactly up to the published
      capacity; the response limit exceeds it by the half difference, which is 0 or 8. */
  lemma InlineThreshold(g: Geometry, i: nat, metaLen: nat, bodyLen: nat)
    requires Sound(g) && i < g.numSlots
    ensures ArenaLen(g, Rsp) - ArenaLen(g, Req) == 0 || ArenaLen(g, Rsp) - ArenaLen(g, Req) == 8
    ensures metaLen <= ArenaLen(g, Req) ==>
              (ArenaBodyOffset(ArenaBase(g, Req, i), ArenaLen(g, Req), metaLen, bodyLen).Some?
               <==> bodyLen <= InlineBodyCapacity(g, metaLen))
    ensures metaLen <= ArenaLen(g, Req) ==>
              (ArenaBodyOffset(ArenaBase(g, Rsp, i), ArenaLen(g, Rsp), metaLen, bodyLen).Some?
               <==> bodyLen <= InlineBodyCapacity(g, metaLen) + (ArenaLen(g, Rsp) - ArenaLen(g, Req)))
  {
    HalvesDiffer(g);
    hide ArenaBase, ArenaLen, ArenaBodyOffset, Align8;
    Threshold(g, Req, i, metaLen, bodyLen);
    Threshold(g, Rsp, i, metaLen, bodyLen);
    if metaLen <= ArenaLen(g, Req) {
      AlignedFits(metaLen, ArenaLen(g, Req));
    }
  }

  /** Inline placement is the plain comparison: the usize guard never decides. */
  lemma Threshold(g: Geometry, dir: Dir, i: nat, metaLen: nat, bodyLen: nat)
    requires Sound(g) && i < g.numSlots
    ensures ArenaBodyOffset(ArenaBase(g, dir, i), ArenaLen(g, dir), metaLen, bodyLen).Some?
            <==> Align8(metaLen) + bodyLen <= ArenaLen(g, dir)
  {
    ArenaInHeap(g, dir, i);
  }

  lemma AlignedFits(n: nat, size: nat)
    requires n <= size && size % 8 == 0
    ensures Align8(n) <= size
  {
  }

  lemma HalfDifference(arena: nat)
    requires arena % 8 == 0
    ensures var half := Floor8(arena / 2); arena - half - half == 0 || arena - half - half == 8
  {
    var q := arena / 8;
    assert arena == 8 * q && arena / 2 == 4 * q;
    assert Floor8(4 * q) == q / 2 * 8;
  }
}
