/** What `write_request` and `write_response` put into a slot, as lists of raw writes, and what
    `read_request`, `read_response` and the watcher make of the bytes they find there. */
module Slots {
  import opened Bytes
  import opened Layout

  /** A request or a response: `tag` is the method byte or the status code. */
  datatype Payload = Payload(tag: nat, meta: seq<byte>, body: seq<byte>)

  const ID_LEN := 36

  function TagLimit(dir: Dir): nat {
    match dir
    case Req => 256
    case Rsp => U16
  }

  // ---- What a reader gets back ---------------------------------------------------------

  function ShortId(id: seq<byte>): seq<byte> {
    if |id| <= ID_LEN then id else id[..ID_LEN]
  }

  function PaddedId(id: seq<byte>): (r: seq<byte>)
    ensures |r| == ID_LEN
  {
    ShortId(id) + Zeros(ID_LEN - |ShortId(id)|)
  }

  /** The bytes before the first zero. */
  function TrimZero(s: seq<byte>): seq<byte> {
    if s == [] || s[0] == 0 then [] else [s[0]] + TrimZero(s[1..])
  }

  function ReceivedId(id: seq<byte>): seq<byte> {
    TrimZero(PaddedId(id))
  }

  /** The payload after the `as u8`/`as u16`/`as u32` casts of its tag and lengths. */
  function Received(dir: Dir, p: Payload): Payload {
    Payload(p.tag % TagLimit(dir), p.meta[..|p.meta| % U16], p.body[..|p.body| % U32])
  }

  predicate ValidId(id: seq<byte>) {
    |id| <= ID_LEN && 0 !in id
  }

  predicate WithinLimits(dir: Dir, p: Payload) {
    p.tag < TagLimit(dir) && |p.meta| < U16 && |p.body| < U32
  }

  /** A payload survives the casts exactly when it is within the field widths. */
  lemma ReceivedExact(dir: Dir, p: Payload)
    ensures Received(dir, p) == p <==> WithinLimits(dir, p)
    ensures Received(dir, p) == p <==>
              p.tag < (if dir == Req then 256 else 65536) && |p.meta| < 65536 && |p.body| < 0x1_0000_0000
  {
    var r := Received(dir, p);
    assert |r.meta| < U16 && |r.body| < U32 && r.tag < TagLimit(dir);
    if WithinLimits(dir, p) {
      assert r.meta == p.meta && r.body == p.body;
    }
  }

  lemma {:induction false} TrimPadded(s: seq<byte>, n: nat)
    requires 0 !in s
    ensures TrimZero(s + Zeros(n)) == s
  {
    var t := s + Zeros(n);
    if s != [] {
      assert s[0] in s;
      assert t[1..] == s[1..] + Zeros(n);
      TrimPadded(s[1..], n);
    }
  }

  /** Trimming keeps the bytes before the first zero, or all. */
  lemma {:induction false} TrimNoZero(s: seq<byte>)
    ensures 0 !in TrimZero(s) && TrimZero(s) <= s
    ensures |TrimZero(s)| < |s| ==> s[|TrimZero(s)|] == 0
  {
    if s != [] && s[0] != 0 {
      TrimNoZero(s[1..]);
    }
  }

  /** An id survives exactly when it is at most 36 bytes long and has no zero byte. */
  lemma ReceivedIdExact(id: seq<byte>)
    ensures ReceivedId(id) == id <==> ValidId(id)
    ensures ReceivedId(id) == id <==> |id| <= 36 && forall k :: 0 <= k < |id| ==> id[k] != 0
  {
    hide TrimZero;
    TrimNoZero(PaddedId(id));
    ZeroFree(id);
    if ValidId(id) {
      TrimPadded(id, ID_LEN - |id|);
    }
    hide ValidId;
  }

  lemma ZeroFree(id: seq<byte>)
    ensures ValidId(id) <==> |id| <= 36 && forall k :: 0 <= k < |id| ==> id[k] != 0
  {
  }

  /** What arrives of any id whatever: the part before its first zero byte, cut at 36 bytes. */
  lemma ReceivedIdPrefix(id: seq<byte>)
    ensures ReceivedId(id) <= id && |ReceivedId(id)| <= 36 && 0 !in ReceivedId(id)
    ensures |ReceivedId(id)| == 36 || |ReceivedId(id)| == |id| || id[|ReceivedId(id)|] == 0
  {
    var s, n := PaddedId(id), |ReceivedId(id)|;
    TrimNoZero(s);
    if |ShortId(id)| < ID_LEN {
      TrimAtZero(s, |ShortId(id)|);
    }
    assert ReceivedId(id) == s[..n] == id[..n];
  }

  lemma {:induction false} TrimAtZero(s: seq<byte>, k: nat)
    requires k < |s| && s[k] == 0
    ensures |TrimZero(s)| <= k
  {
    if k > 0 {
      TrimAtZero(s[1..], k - 1);
    }
  }

  // ---- Write programs ---------------------------------------------------------------------

  /** Offset in the slot of a direction's pointer fields: metadata offset, metadata length,
      body offset, body length and overflow marker sit at +0, +4, +8, +12 and +16. */
  function FieldBase(dir: Dir): nat {
    match dir
    case Req => 44
    case Rsp => 68
  }

  /** The first writes: id (cleared, then copied) and method, or the status code. */
  function Head(dir: Dir, i: nat, id: seq<byte>, p: Payload): seq<Write> {
    match dir
    case Req => [Write(SlotBase(i) + 4, Zeros(ID_LEN)), Write(SlotBase(i) + 4, ShortId(id)),
                 Write(SlotBase(i) + 40, [p.tag % 256])]
    case Rsp => [Write(SlotBase(i) + 64, U16Bytes(p.tag))]
  }

  function MetaWrites(g: Geometry, dir: Dir, i: nat, p: Payload): seq<Write> {
    var f := SlotBase(i) + FieldBase(dir);
    [Write(g.heapOffset + ArenaBase(g, dir, i), p.meta),
     Write(f, U32Bytes(ArenaBase(g, dir, i))),
     Write(f + 4, U16Bytes(|p.meta|))]
  }

  datatype Placement = Empty | Inline(offset: nat) | Spill

  function Place(g: Geometry, dir: Dir, i: nat, metaLen: nat, bodyLen: nat): Placement {
    if bodyLen == 0 then Empty
    else
      match ArenaBodyOffset(ArenaBase(g, dir, i), ArenaLen(g, dir), metaLen, bodyLen)
      case Some(off) => Inline(off)
      case None => Spill
  }

  function PlaceOf(g: Geometry, dir: Dir, i: nat, p: Payload): Placement {
    Place(g, dir, i, |p.meta|, |p.body|)
  }

  predicate SpillsAt(g: Geometry, dir: Dir, i: nat, p: Payload) {
    PlaceOf(g, dir, i, p).Spill?
  }

  function BodyFields(dir: Dir, i: nat, offset: nat, len: nat, marker: nat): seq<Write> {
    var f := SlotBase(i) + FieldBase(dir);
    [Write(f + 8, U32Bytes(offset)), Write(f + 12, U32Bytes(len)), Write(f + 16, [marker % 256])]
  }

  function BodyWrites(g: Geometry, dir: Dir, i: nat, p: Payload, marker: nat): seq<Write> {
    match PlaceOf(g, dir, i, p)
    case Empty => BodyFields(dir, i, 0, 0, 0)
    case Inline(off) => [Write(g.heapOffset + off, p.body)] + BodyFields(dir, i, off, |p.body|, 0)
    case Spill => BodyFields(dir, i, 0, |p.body|, marker)
  }

  /** Every raw write of one call, in program order, up to the status store. */
  function Program(g: Geometry, dir: Dir, i: nat, id: seq<byte>, p: Payload, marker: nat): seq<Write> {
    Head(dir, i, id, p) + MetaWrites(g, dir, i, p) + BodyWrites(g, dir, i, p, marker)
  }

  /** Index of the metadata size check in the program, and of the first body write. */
  function HeadLen(dir: Dir): nat {
    match dir
    case Req => 3
    case Rsp => 1
  }

  function BodyIndex(dir: Dir): nat {
    HeadLen(dir) + 3
  }

  predicate MetaFits(g: Geometry, dir: Dir, p: Payload) {
    |p.meta| <= ArenaLen(g, dir)
  }

  // ---- Overflow regions -----------------------------------------------------------------------------

  /** `(len + 4095) & !4095`, at least one page */
  function OverflowSize(len: nat): nat {
    var size := (len + 4095) / 4096 * 4096;
    if size < 4096 then 4096 else size
  }

  /** A fresh region's bytes once the body has been copied into it. */
  function FilledPages(body: seq<byte>): seq<byte> {
    body + Zeros(SaturatingSub(OverflowSize(|body|), |body|))
  }

  /** A fresh region is the least whole number of pages, and at least one, that has room for the body,
      which is followed by zeros. */
  lemma OverflowCovers(body: seq<byte>)
    ensures OverflowSize(|body|) >= |body| && OverflowSize(|body|) % 4096 == 0 && OverflowSize(|body|) > 0
    ensures forall size: nat :: size % 4096 == 0 && size > 0 && size >= |body| ==> OverflowSize(|body|) <= size
    ensures |FilledPages(body)| == OverflowSize(|body|) && FilledPages(body)[..|body|] == body
    ensures forall k :: |body| <= k < |FilledPages(body)| ==> FilledPages(body)[k] == 0
  {
  }

  // ---- What is in place after part of a program -----------------------------------------------

  /** The program's lasting effect: the cleared and then copied id count as one padded id. */
  ghost function Settled(g: Geometry, dir: Dir, i: nat, id: seq<byte>, p: Payload, marker: nat): seq<Write> {
    SettledHead(dir, i, id, p) + MetaWrites(g, dir, i, p) + BodyWrites(g, dir, i, p, marker)
  }

  ghost function SettledHead(dir: Dir, i: nat, id: seq<byte>, p: Payload): seq<Write> {
    match dir
    case Req => [Write(SlotBase(i) + 4, PaddedId(id)), Write(SlotBase(i) + 40, [p.tag % 256])]
    case Rsp => [Write(SlotBase(i) + 64, U16Bytes(p.tag))]
  }

  /** What must be in place once the first `k` writes have been made. */
  ghost function Landed(g: Geometry, dir: Dir, i: nat, id: seq<byte>, p: Payload, marker: nat, k: nat): seq<Write>
    requires k <= |Program(g, dir, i, id, p, marker)|
  {
    match dir
    case Req =>
      if k <= 1 then Program(g, dir, i, id, p, marker)[..k]
      else Settled(g, dir, i, id, p, marker)[..k - 1]
    case Rsp => Settled(g, dir, i, id, p, marker)[..k]
  }

  /** A whole program has been carried out and nothing has disturbed it. */
  ghost predicate Stored(mem: seq<byte>, g: Geometry, dir: Dir, i: nat, id: seq<byte>, p: Payload, marker: nat) {
    AllAt(mem, Settled(g, dir, i, id, p, marker))
  }

  /** The slot fields and the arena half that one direction of slot `i` owns. */
  predicate InFields(dir: Dir, i: nat, lo: nat, hi: nat) {
    match dir
    case Req => SlotBase(i) + 4 <= lo && hi <= SlotBase(i) + 64
    case Rsp => SlotBase(i) + 64 <= lo && hi <= SlotBase(i) + 88
  }

  predicate InArena(g: Geometry, dir: Dir, i: nat, lo: nat, hi: nat) {
    g.heapOffset + ArenaBase(g, dir, i) <= lo && hi <= g.heapOffset + ArenaEnd(g, dir, i)
  }

  predicate InFootprint(g: Geometry, dir: Dir, i: nat, w: Write) {
    var lo, hi := w.off, w.off + |w.data|;
    InFields(dir, i, lo, hi) || InArena(g, dir, i, lo, hi)
  }

  predicate ByteInFootprint(g: Geometry, dir: Dir, i: nat, a: nat) {
    InFields(dir, i, a, a + 1) || InArena(g, dir, i, a, a + 1)
  }

  /** Where a body goes, in plain arithmetic. */
  lemma PlaceExact(g: Geometry, dir: Dir, i: nat, p: Payload)
    requires Sound(g) && i < g.numSlots
    ensures PlaceOf(g, dir, i, p)
         == if |p.body| == 0 then Empty
            else if Align8(|p.meta|) + |p.body| <= ArenaLen(g, dir) then Inline(ArenaBase(g, dir, i) + Align8(|p.meta|))
            else Spill
  {
    hide ArenaBase, ArenaLen, Align8;
    Threshold(g, dir, i, |p.meta|, |p.body|);
  }

  // ---- Footprints ----------------------------------------------------------------------------------

  /** Footprints of distinct (slot, direction) pairs share no byte. */
  lemma FootprintsDisjoint(g: Geometry, dir: Dir, i: nat, dir': Dir, i': nat, a: nat)
    requires Sound(g) && i < g.numSlots && i' < g.numSlots && (dir != dir' || i != i')
    requires ByteInFootprint(g, dir, i, a)
    ensures !ByteInFootprint(g, dir', i', a)
  {
    ArenasDisjoint(g, dir, i, dir', i');
  }

  lemma FootprintsApart(g: Geometry, dir: Dir, i: nat, v: Write, dir': Dir, i': nat, w: Write)
    requires Sound(g) && i < g.numSlots && i' < g.numSlots && (dir != dir' || i != i')
    requires InFootprint(g, dir, i, v) && InFootprint(g, dir', i', w)
    ensures Apart(v, w)
  {
    ArenasDisjoint(g, dir, i, dir', i');
  }

  lemma FootprintFits(g: Geometry, dir: Dir, i: nat, w: Write, mem: seq<byte>)
    requires Sound(g) && i < g.numSlots && InFootprint(g, dir, i, w) && MappedSize(g) <= |mem|
    ensures Fits(mem, w)
  {
    ArenaInHeap(g, dir, i);
  }

  lemma BodyOffsetBounds(g: Geometry, dir: Dir, i: nat, p: Payload)
    requires PlaceOf(g, dir, i, p).Inline?
    ensures var off := PlaceOf(g, dir, i, p).offset;
            off == ArenaBase(g, dir, i) + Align8(|p.meta|)
            && ArenaBase(g, dir, i) + |p.meta| <= off && off + |p.body| <= ArenaEnd(g, dir, i)
  {
  }

  /** Head writes stay in the slot's fields; the rest stays in the footprint once the metadata fits. */
  lemma ProgramInFootprint(g: Geometry, dir: Dir, i: nat, id: seq<byte>, p: Payload, marker: nat, k: nat)
    requires k < |Program(g, dir, i, id, p, marker)| && (k < HeadLen(dir) || MetaFits(g, dir, p))
    ensures InFootprint(g, dir, i, Program(g, dir, i, id, p, marker)[k])
  {
    if PlaceOf(g, dir, i, p).Inline? { BodyOffsetBounds(g, dir, i, p); }
  }

  lemma SettledInFootprint(g: Geometry, dir: Dir, i: nat, id: seq<byte>, p: Payload, marker: nat)
    requires MetaFits(g, dir, p)
    ensures forall k :: 0 <= k < |Settled(g, dir, i, id, p, marker)| ==>
              InFootprint(g, dir, i, Settled(g, dir, i, id, p, marker)[k])
  {
    if PlaceOf(g, dir, i, p).Inline? { BodyOffsetBounds(g, dir, i, p); }
  }

  ghost predicate PairwiseApart(ws: seq<Write>) {
    forall j, k :: 0 <= j < k < |ws| ==> Apart(ws[j], ws[k])
  }

  ghost predicate CrossApart(vs: seq<Write>, ws: seq<Write>) {
    forall j, k :: 0 <= j < |vs| && 0 <= k < |ws| ==> Apart(vs[j], ws[k])
  }

  lemma ConcatApart(vs: seq<Write>, ws: seq<Write>)
    requires PairwiseApart(vs) && PairwiseApart(ws) && CrossApart(vs, ws)
    ensures PairwiseApart(vs + ws)
  {
    var all := vs + ws;
    forall j, k | 0 <= j < k < |all| ensures Apart(all[j], all[k]) {
      if j < |vs| && |vs| <= k {
        assert Apart(vs[j], ws[k - |vs|]);
      }
    }
  }

  lemma HeadApart(g: Geometry, dir: Dir, i: nat, id: seq<byte>, p: Payload, marker: nat)
    requires Sound(g) && i < g.numSlots
    ensures PairwiseApart(SettledHead(dir, i, id, p))
    ensures CrossApart(SettledHead(dir, i, id, p), MetaWrites(g, dir, i, p))
    ensures CrossApart(SettledHead(dir, i, id, p), BodyWrites(g, dir, i, p, marker))
  {
    hide U16Bytes, U32Bytes, PaddedId;
  }

  lemma BodyApart(g: Geometry, dir: Dir, i: nat, p: Payload, marker: nat)
    requires Sound(g) && i < g.numSlots
    ensures PairwiseApart(MetaWrites(g, dir, i, p))
    ensures PairwiseApart(BodyWrites(g, dir, i, p, marker))
    ensures CrossApart(MetaWrites(g, dir, i, p), BodyWrites(g, dir, i, p, marker))
  {
    hide U16Bytes, U32Bytes;
    if PlaceOf(g, dir, i, p).Inline? { BodyOffsetBounds(g, dir, i, p); }
  }

  lemma SettledApart(g: Geometry, dir: Dir, i: nat, id: seq<byte>, p: Payload, marker: nat)
    requires Sound(g) && i < g.numSlots
    ensures PairwiseApart(Settled(g, dir, i, id, p, marker))
  {
    var h, m, b := SettledHead(dir, i, id, p), MetaWrites(g, dir, i, p), BodyWrites(g, dir, i, p, marker);
    HeadApart(g, dir, i, id, p, marker);
    BodyApart(g, dir, i, p, marker);
    ConcatApart(m, b);
    ConcatApart(h, m + b);
    assert h + m + b == h + (m + b);
  }

  // ---- One write at a time ------------------------------------------------------------------------

  /** Clearing the id field and copying a short id over it leaves the padded id. */
  lemma PadInTwoSteps(mem: seq<byte>, off: nat, id: seq<byte>)
    requires At(mem, Write(off, Zeros(ID_LEN)))
    ensures Fits(mem, Write(off, ShortId(id)))
    ensures At(Splice(mem, Write(off, ShortId(id))), Write(off, PaddedId(id)))
  {
    var w := Write(off, ShortId(id));
    var r := Splice(mem, w);
    var n := |ShortId(id)|;
    assert r[off..off + n] == ShortId(id);
    forall a | off + n <= a < off + ID_LEN ensures r[a] == 0 {
      assert mem[off..off + ID_LEN][a - off] == 0;
    }
    assert r[off + n..off + ID_LEN] == Zeros(ID_LEN - n);
    assert r[off..off + ID_LEN] == r[off..off + n] + r[off + n..off + ID_LEN];
  }

  lemma SpliceNext(mem: seq<byte>, ws: seq<Write>, k: nat)
    requires PairwiseApart(ws) && k < |ws| && AllAt(mem, ws[..k]) && Fits(mem, ws[k])
    ensures AllAt(Splice(mem, ws[k]), ws[..k + 1])
  {
    forall j | 0 <= j < |ws[..k]| ensures Apart(ws[..k][j], ws[k]) {
      assert Apart(ws[j], ws[k]);
    }
    SpliceKeepsAll(mem, ws[k], ws[..k]);
    assert ws[..k + 1] == ws[..k] + [ws[k]];
  }

  /** One more write of a program lands, and keeps in place all that had landed before it. */
  lemma LandNext(mem: seq<byte>, g: Geometry, dir: Dir, i: nat, id: seq<byte>, p: Payload, marker: nat, k: nat)
    requires Sound(g) && i < g.numSlots && MappedSize(g) <= |mem|
    requires k < |Program(g, dir, i, id, p, marker)| && Fits(mem, Program(g, dir, i, id, p, marker)[k])
    requires AllAt(mem, Landed(g, dir, i, id, p, marker, k))
    ensures AllAt(Splice(mem, Program(g, dir, i, id, p, marker)[k]), Landed(g, dir, i, id, p, marker, k + 1))
  {
    var ws := Program(g, dir, i, id, p, marker);
    var all := Settled(g, dir, i, id, p, marker);
    var r := Splice(mem, ws[k]);
    SettledApart(g, dir, i, id, p, marker);
    if dir == Rsp {
      assert ws[k] == all[k];
      SpliceNext(mem, all, k);
    } else if k == 0 {
      assert At(r, ws[0]);
    } else if k == 1 {
      assert Landed(g, dir, i, id, p, marker, 1)[0] == ws[0];
      PadInTwoSteps(mem, SlotBase(i) + 4, id);
      assert all[..1] == [all[0]];
    } else {
      assert ws[k] == all[k - 1];
      SpliceNext(mem, all, k - 1);
    }
  }

  /** A write to another footprint disturbs nothing that has landed. */
  lemma LandedFrame(mem: seq<byte>, w: Write, g: Geometry, dir': Dir, i': nat,
                    dir: Dir, i: nat, id: seq<byte>, p: Payload, marker: nat, k: nat)
    requires Sound(g) && i < g.numSlots && i' < g.numSlots && (dir != dir' || i != i')
    requires Fits(mem, w) && InFootprint(g, dir', i', w)
    requires k <= |Program(g, dir, i, id, p, marker)|
    requires HeadLen(dir) < k ==> MetaFits(g, dir, p)
    requires AllAt(mem, Landed(g, dir, i, id, p, marker, k))
    ensures AllAt(Splice(mem, w), Landed(g, dir, i, id, p, marker, k))
  {
    var ws := Landed(g, dir, i, id, p, marker, k);
    forall j | 0 <= j < |ws| ensures Apart(ws[j], w) {
      LandedInFootprint(g, dir, i, id, p, marker, k, j);
      FootprintsApart(g, dir, i, ws[j], dir', i', w);
    }
    SpliceKeepsAll(mem, w, ws);
  }

  lemma LandedInFootprint(g: Geometry, dir: Dir, i: nat, id: seq<byte>, p: Payload, marker: nat, k: nat, j: nat)
    requires k <= |Program(g, dir, i, id, p, marker)| && (HeadLen(dir) < k ==> MetaFits(g, dir, p))
    requires j < |Landed(g, dir, i, id, p, marker, k)|
    ensures InFootprint(g, dir, i, Landed(g, dir, i, id, p, marker, k)[j])
  {
    if MetaFits(g, dir, p) {
      SettledInFootprint(g, dir, i, id, p, marker);
    }
  }

  lemma StoredFrame(mem: seq<byte>, w: Write, g: Geometry, dir': Dir, i': nat,
                    dir: Dir, i: nat, id: seq<byte>, p: Payload, marker: nat)
    requires Sound(g) && i < g.numSlots && i' < g.numSlots && (dir != dir' || i != i')
    requires Fits(mem, w) && InFootprint(g, dir', i', w) && MetaFits(g, dir, p)
    requires Stored(mem, g, dir, i, id, p, marker)
    ensures Stored(Splice(mem, w), g, dir, i, id, p, marker)
  {
    LandedAll(g, dir, i, id, p, marker);
    LandedFrame(mem, w, g, dir', i', dir, i, id, p, marker, |Program(g, dir, i, id, p, marker)|);
  }

  lemma LandedAll(g: Geometry, dir: Dir, i: nat, id: seq<byte>, p: Payload, marker: nat)
    ensures Landed(g, dir, i, id, p, marker, |Program(g, dir, i, id, p, marker)|) == Settled(g, dir, i, id, p, marker)
  {
  }

  /** Up to the first body write the program does not depend on the marker. */
  lemma PrefixIgnoresMarker(g: Geometry, dir: Dir, i: nat, id: seq<byte>, p: Payload, m: nat, m': nat)
    ensures BodyIndex(dir) <= |Program(g, dir, i, id, p, m)| == |Program(g, dir, i, id, p, m')|
    ensures Landed(g, dir, i, id, p, m, BodyIndex(dir)) == Landed(g, dir, i, id, p, m', BodyIndex(dir))
  {
    var h, mw := SettledHead(dir, i, id, p), MetaWrites(g, dir, i, p);
    assert Landed(g, dir, i, id, p, m, BodyIndex(dir)) == h + mw;
    assert Landed(g, dir, i, id, p, m', BodyIndex(dir)) == h + mw;
  }

  // ---- Read side --------------------------------------------------------------------------------------

  function DecodeId(mem: seq<byte>, i: nat): seq<byte>
    requires SlotBase(i) + SLOT_META_SIZE <= |mem|
  {
    TrimZero(mem[SlotBase(i) + 4..SlotBase(i) + 40])
  }

  function DecodeTag(mem: seq<byte>, dir: Dir, i: nat): nat
    requires SlotBase(i) + SLOT_META_SIZE <= |mem|
  {
    match dir
    case Req => mem[SlotBase(i) + 40]
    case Rsp => FromLittleEndian(mem[SlotBase(i) + 64..SlotBase(i) + 66])
  }

  /** `heap_read_checked` */
  function HeapRead(mem: seq<byte>, g: Geometry, offset: nat, len: nat): Option<seq<byte>>
    requires MappedSize(g) <= |mem|
  {
    if offset + len < USIZE && offset + len <= g.heapSize
    then Some(mem[g.heapOffset + offset..g.heapOffset + offset + len])
    else None
  }

  function DecodeMeta(mem: seq<byte>, g: Geometry, dir: Dir, i: nat): Option<seq<byte>>
    requires MappedSize(g) <= |mem| && SlotBase(i) + SLOT_META_SIZE <= |mem|
  {
    var f := SlotBase(i) + FieldBase(dir);
    HeapRead(mem, g, FromLittleEndian(mem[f..f + 4]), FromLittleEndian(mem[f + 4..f + 6]))
  }

  /** Where the slot says the body is; inline bodies are read on the spot, with a bounds check. */
  datatype BodyRef = NoBody | InHeap(bytes: Option<seq<byte>>) | InOverflow(generation: nat, len: nat)

  /** A direction's body offset, body length and overflow marker, as the slot structure has them. */
  datatype BodyPointer = BodyPointer(offset: nat, len: nat, marker: nat)

  function DecodePointer(mem: seq<byte>, dir: Dir, i: nat): BodyPointer
    requires SlotBase(i) + SLOT_META_SIZE <= |mem|
  {
    var f := SlotBase(i) + FieldBase(dir);
    BodyPointer(FromLittleEndian(mem[f + 8..f + 12]), FromLittleEndian(mem[f + 12..f + 16]), mem[f + 16])
  }

  function DecodeBody(mem: seq<byte>, g: Geometry, dir: Dir, i: nat): BodyRef
    requires MappedSize(g) <= |mem| && SlotBase(i) + SLOT_META_SIZE <= |mem|
  {
    var ptr := DecodePointer(mem, dir, i);
    if ptr.len == 0 then NoBody
    else
      match OverflowGeneration(ptr.marker)
      case None => InHeap(HeapRead(mem, g, ptr.offset, ptr.len))
      case Some(generation) => InOverflow(generation, ptr.len)
  }

  /** What a stored payload reads back as, given the marker its overflow region was created under. */
  function ExpectedBody(g: Geometry, dir: Dir, i: nat, p: Payload, marker: nat): BodyRef
    requires MarkerOk(g, dir, i, p, marker)
  {
    if |p.body| % U32 == 0 then NoBody
    else if PlaceOf(g, dir, i, p).Spill? then InOverflow(marker - 1, |p.body| % U32)
    else InHeap(Some(p.body))
  }

  predicate MarkerOk(g: Geometry, dir: Dir, i: nat, p: Payload, marker: nat) {
    PlaceOf(g, dir, i, p).Spill? ==> 0 < marker <= 255
  }

  lemma AtSlice(mem: seq<byte>, off: nat, data: seq<byte>)
    requires At(mem, Write(off, data))
    ensures off + |data| <= |mem| && mem[off..off + |data|] == data
  {
  }

  /** A stored program, taken apart into its three stretches. */
  lemma StoredParts(mem: seq<byte>, g: Geometry, dir: Dir, i: nat, id: seq<byte>, p: Payload, marker: nat)
    requires Stored(mem, g, dir, i, id, p, marker)
    ensures AllAt(mem, SettledHead(dir, i, id, p))
    ensures AllAt(mem, MetaWrites(g, dir, i, p))
    ensures AllAt(mem, BodyWrites(g, dir, i, p, marker))
  {
    var ws := Settled(g, dir, i, id, p, marker);
    var h, m, b := SettledHead(dir, i, id, p), MetaWrites(g, dir, i, p), BodyWrites(g, dir, i, p, marker);
    forall j | 0 <= j < |h| ensures At(mem, h[j]) { assert ws[j] == h[j]; }
    forall j | 0 <= j < |m| ensures At(mem, m[j]) { assert ws[|h| + j] == m[j]; }
    forall j | 0 <= j < |b| ensures At(mem, b[j]) { assert ws[|h| + |m| + j] == b[j]; }
  }

  lemma StoredHead(mem: seq<byte>, g: Geometry, dir: Dir, i: nat, id: seq<byte>, p: Payload, marker: nat)
    requires Stored(mem, g, dir, i, id, p, marker) && SlotBase(i) + SLOT_META_SIZE <= |mem|
    ensures dir == Req ==> DecodeId(mem, i) == ReceivedId(id)
    ensures DecodeTag(mem, dir, i) == Received(dir, p).tag
  {
    StoredParts(mem, g, dir, i, id, p, marker);
    var ws := SettledHead(dir, i, id, p);
    match dir
    case Req =>
      assert At(mem, ws[0]) && At(mem, ws[1]);
      AtSlice(mem, SlotBase(i) + 4, PaddedId(id));
      AtSlice(mem, SlotBase(i) + 40, [p.tag % 256]);
      assert mem[SlotBase(i) + 40..SlotBase(i) + 41][0] == mem[SlotBase(i) + 40];
    case Rsp =>
      assert At(mem, ws[0]);
      U16RoundTrip(p.tag);
  }

  lemma PrefixSlice(mem: seq<byte>, off: nat, n: nat, data: seq<byte>)
    requires n <= |data| && At(mem, Write(off, data))
    ensures off + n <= |mem| && mem[off..off + n] == data[..n]
  {
    assert mem[off..off + n] == mem[off..off + |data|][..n];
  }

  lemma StoredMeta(mem: seq<byte>, g: Geometry, dir: Dir, i: nat, id: seq<byte>, p: Payload, marker: nat)
    requires Sound(g) && i < g.numSlots && MappedSize(g) <= |mem| && MetaFits(g, dir, p)
    requires Stored(mem, g, dir, i, id, p, marker)
    ensures DecodeMeta(mem, g, dir, i) == Some(Received(dir, p).meta)
  {
    StoredParts(mem, g, dir, i, id, p, marker);
    ArenaInHeap(g, dir, i);
    MetaReadsBack(mem, g, ArenaBase(g, dir, i), SlotBase(i) + FieldBase(dir), p.meta, MetaWrites(g, dir, i, p));
  }

  lemma U16At(mem: seq<byte>, off: nat, n: nat)
    requires At(mem, Write(off, U16Bytes(n)))
    ensures off + 2 <= |mem| && FromLittleEndian(mem[off..off + 2]) == n % U16
  {
    AtSlice(mem, off, U16Bytes(n));
    U16RoundTrip(n);
  }

  lemma U32At(mem: seq<byte>, off: nat, n: nat)
    requires At(mem, Write(off, U32Bytes(n)))
    ensures off + 4 <= |mem| && FromLittleEndian(mem[off..off + 4]) == n % U32
  {
    AtSlice(mem, off, U32Bytes(n));
    U32RoundTrip(n);
  }

  lemma MetaReadsBack(mem: seq<byte>, g: Geometry, base: nat, f: nat, meta: seq<byte>, mw: seq<Write>)
    requires g.heapSize < U32 && MappedSize(g) <= |mem| && base + |meta| <= g.heapSize
    requires mw == [Write(g.heapOffset + base, meta), Write(f, U32Bytes(base)), Write(f + 4, U16Bytes(|meta|))]
    requires AllAt(mem, mw)
    ensures f + 6 <= |mem|
    ensures HeapRead(mem, g, FromLittleEndian(mem[f..f + 4]), FromLittleEndian(mem[f + 4..f + 6]))
              == Some(meta[..|meta| % U16])
  {
    assert At(mem, Write(g.heapOffset + base, meta)) by { assert At(mem, mw[0]); }
    assert FromLittleEndian(mem[f..f + 4]) == base by {
      assert At(mem, mw[1]);
      U32At(mem, f, base);
    }
    assert f + 6 <= |mem| && FromLittleEndian(mem[f + 4..f + 6]) == |meta| % U16 by {
      assert At(mem, mw[2]);
      U16At(mem, f + 4, |meta|);
    }
    MetaBytes(mem, g, base, meta, |meta| % U16);
  }

  lemma MetaBytes(mem: seq<byte>, g: Geometry, base: nat, meta: seq<byte>, n: nat)
    requires g.heapSize < U32 && MappedSize(g) <= |mem| && base + |meta| <= g.heapSize && n <= |meta|
    requires At(mem, Write(g.heapOffset + base, meta))
    ensures HeapRead(mem, g, base, n) == Some(meta[..n])
  {
    PrefixSlice(mem, g.heapOffset + base, n, meta);
  }

  lemma FieldsReadBack(mem: seq<byte>, dir: Dir, i: nat, offset: nat, len: nat, marker: nat)
    requires AllAt(mem, BodyFields(dir, i, offset, len, marker)) && SlotBase(i) + SLOT_META_SIZE <= |mem|
    ensures DecodePointer(mem, dir, i) == BodyPointer(offset % U32, len % U32, marker % 256)
  {
    hide U32Bytes, FromLittleEndian;
    var f := SlotBase(i) + FieldBase(dir);
    var ws := BodyFields(dir, i, offset, len, marker);
    assert At(mem, ws[0]) && At(mem, ws[1]) && At(mem, ws[2]);
    U32At(mem, f + 8, offset);
    U32At(mem, f + 12, len);
    AtSlice(mem, f + 16, [marker % 256]);
    assert mem[f + 16..f + 17][0] == mem[f + 16];
  }

  /** The metadata's offset and length, as a stored payload leaves them. */
  lemma MetaPointer(mem: seq<byte>, g: Geometry, dir: Dir, i: nat, p: Payload)
    requires AllAt(mem, MetaWrites(g, dir, i, p))
    ensures var f := SlotBase(i) + FieldBase(dir);
            && f + 6 <= |mem| && FromLittleEndian(mem[f..f + 4]) == ArenaBase(g, dir, i) % U32
            && FromLittleEndian(mem[f + 4..f + 6]) == |p.meta| % U16
  {
    hide U16Bytes, U32Bytes, FromLittleEndian, ArenaBase;
    var f, ws := SlotBase(i) + FieldBase(dir), MetaWrites(g, dir, i, p);
    assert At(mem, ws[1]) && At(mem, ws[2]);
    U32At(mem, f, ArenaBase(g, dir, i));
    U16At(mem, f + 4, |p.meta|);
  }

  lemma InlineFields(mem: seq<byte>, g: Geometry, dir: Dir, i: nat, p: Payload, marker: nat, off: nat)
    requires PlaceOf(g, dir, i, p) == Inline(off) && AllAt(mem, BodyWrites(g, dir, i, p, marker))
    ensures AllAt(mem, BodyFields(dir, i, off, |p.body|, 0))
  {
    var bw := BodyWrites(g, dir, i, p, marker);
    hide PlaceOf, U32Bytes;
    forall j | 0 <= j < 3 ensures At(mem, BodyFields(dir, i, off, |p.body|, 0)[j]) {
      assert bw[j + 1] == BodyFields(dir, i, off, |p.body|, 0)[j];
    }
  }

  /** The body's pointer fields, as a stored payload leaves them. */
  function ExpectedPointer(g: Geometry, dir: Dir, i: nat, p: Payload, marker: nat): BodyPointer {
    match PlaceOf(g, dir, i, p)
    case Empty => BodyPointer(0, 0, 0)
    case Inline(off) => BodyPointer(off % U32, |p.body| % U32, 0)
    case Spill => BodyPointer(0, |p.body| % U32, marker % 256)
  }

  lemma PointerReadsBack(mem: seq<byte>, g: Geometry, dir: Dir, i: nat, p: Payload, marker: nat)
    requires SlotBase(i) + SLOT_META_SIZE <= |mem| && AllAt(mem, BodyWrites(g, dir, i, p, marker))
    ensures DecodePointer(mem, dir, i) == ExpectedPointer(g, dir, i, p, marker)
  {
    hide DecodePointer, BodyFields, AllAt, PlaceOf;
    match PlaceOf(g, dir, i, p)
    case Empty => FieldsReadBack(mem, dir, i, 0, 0, 0);
    case Inline(off) =>
      InlineFields(mem, g, dir, i, p, marker, off);
      FieldsReadBack(mem, dir, i, off, |p.body|, 0);
    case Spill => FieldsReadBack(mem, dir, i, 0, |p.body|, marker);
  }

  lemma InlineReadsBack(mem: seq<byte>, g: Geometry, dir: Dir, i: nat, off: nat, body: seq<byte>)
    requires g.heapSize < U32 && MappedSize(g) <= |mem| && SlotBase(i) + SLOT_META_SIZE <= |mem|
    requires off + |body| <= g.heapSize && |body| > 0
    requires At(mem, Write(g.heapOffset + off, body)) && AllAt(mem, BodyFields(dir, i, off, |body|, 0))
    ensures DecodeBody(mem, g, dir, i) == InHeap(Some(body))
  {
    FieldsReadBack(mem, dir, i, off, |body|, 0);
    SmallMod(off);
    SmallMod(|body|);
    MetaBytes(mem, g, off, body, |body|);
    assert body[..|body|] == body;
    hide DecodePointer, HeapRead, BodyFields;
  }

  lemma StoredBody(mem: seq<byte>, g: Geometry, dir: Dir, i: nat, id: seq<byte>, p: Payload, marker: nat)
    requires Sound(g) && i < g.numSlots && MappedSize(g) <= |mem| && MarkerOk(g, dir, i, p, marker)
    requires Stored(mem, g, dir, i, id, p, marker)
    ensures DecodeBody(mem, g, dir, i) == ExpectedBody(g, dir, i, p, marker)
    ensures PlaceOf(g, dir, i, p).Inline? ==> |p.body| < U32
  {
    StoredParts(mem, g, dir, i, id, p, marker);
    BodyReadsBack(mem, g, dir, i, p, marker);
  }

  lemma SpillReadsBack(mem: seq<byte>, g: Geometry, dir: Dir, i: nat, len: nat, marker: nat)
    requires MappedSize(g) <= |mem| && SlotBase(i) + SLOT_META_SIZE <= |mem| && marker <= 255
    requires AllAt(mem, BodyFields(dir, i, 0, len, marker))
    ensures len % U32 == 0 ==> DecodeBody(mem, g, dir, i) == NoBody
    ensures len % U32 > 0 && marker > 0 ==> DecodeBody(mem, g, dir, i) == InOverflow(marker - 1, len % U32)
  {
    assert DecodePointer(mem, dir, i) == BodyPointer(0, len % U32, marker) by {
      FieldsReadBack(mem, dir, i, 0, len, marker);
    }
  }

  lemma BodyReadsBack(mem: seq<byte>, g: Geometry, dir: Dir, i: nat, p: Payload, marker: nat)
    requires Sound(g) && i < g.numSlots && MappedSize(g) <= |mem| && MarkerOk(g, dir, i, p, marker)
    requires AllAt(mem, BodyWrites(g, dir, i, p, marker))
    ensures DecodeBody(mem, g, dir, i) == ExpectedBody(g, dir, i, p, marker)
    ensures PlaceOf(g, dir, i, p).Inline? ==> |p.body| < U32
  {
    var bw := BodyWrites(g, dir, i, p, marker);
    match PlaceOf(g, dir, i, p)
    case Empty =>
      SpillReadsBack(mem, g, dir, i, 0, 0);
    case Inline(off) =>
      BodyOffsetBounds(g, dir, i, p);
      ArenaInHeap(g, dir, i);
      SmallMod(|p.body|);
      assert DecodeBody(mem, g, dir, i) == InHeap(Some(p.body)) by {
        assert At(mem, bw[0]);
        forall j | 0 <= j < 3 ensures At(mem, BodyFields(dir, i, off, |p.body|, 0)[j]) {
          assert bw[j + 1] == BodyFields(dir, i, off, |p.body|, 0)[j];
        }
        InlineReadsBack(mem, g, dir, i, off, p.body);
      }
    case Spill =>
      SpillReadsBack(mem, g, dir, i, |p.body|, marker);
  }

  lemma SmallMod(n: nat)
    ensures n < U32 ==> n % U32 == n
  {
  }
}
