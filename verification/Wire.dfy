/** The mapping byte by byte: which numbers stand where once `init_control`, `write_request` and
    `write_response` have run, and what the readers make of any bytes at all. Offsets are counted from the
    start of the mapping; nothing here speaks of the lists of writes by which they got there. */
module Wire {
  import opened Bytes
  import opened Layout
  import opened Slots
  import Names
  import Overflow
  import opened ShmRegion
  import opened RoundTrips

  /** Two bytes as a number. */
  function Half(mem: seq<byte>, off: nat): nat
    requires off + 2 <= |mem|
  {
    FromLittleEndian(mem[off..off + 2])
  }

  // ---- The header --------------------------------------------------------------------------------

  /** After `init_control` the first six words are these and every other byte is zero. */
  lemma FreshHeader(len: nat, g: Geometry, mem: seq<byte>)
    requires SHM_HEADER_SIZE <= len && Made(Zeros(len), HeaderWrites(g), mem)
    ensures |mem| == len && Word(mem, 0) == 0x534C4231 && Word(mem, 4) == 2
    ensures Word(mem, 8) == g.numSlots % 0x1_0000_0000 && Word(mem, 12) == g.heapOffset % 0x1_0000_0000
    ensures Word(mem, 16) == g.heapSize % 0x1_0000_0000 && Word(mem, 20) == 0
    ensures forall a :: 24 <= a < len ==> mem[a] == 0
  {
    var ws := HeaderWrites(g);
    HeaderApart(g);
    ApartLand(Zeros(len), ws, 6);
    assert ws[..6] == ws;
    FreshWords(mem, g);
    assert At(mem, ws[5]);
    WordAt(mem, 20, 0);
    forall a | 24 <= a < len ensures mem[a] == 0 {
      hide U32Bytes;
      ApplyFrame(Zeros(len), ws, a);
    }
  }

  // ---- Status words ------------------------------------------------------------------------------

  /** The status words after a write call: a finished request is Ready, a failed one Free, a finished
      response Done, a failed one leaves the word as it was; no other slot's word changes. */
  lemma StatusAfter(was: seq<byte>, g: Geometry, dir: Dir, i: nat, id: seq<byte>, p: Payload,
                    r: Result<Option<Handle>>, now: seq<byte>)
    requires Sound(g) && i < g.numSlots && MappedSize(g) <= |was|
    requires r == Err(MetaTooLarge) || MetaFits(g, dir, p)
    requires Made(was, Stores(g, dir, i, id, p, r), now)
    ensures |now| == |was|
    ensures dir == Req ==> Word(now, 64 + 128 * i) == if r.Ok? then 1 else 0
    ensures dir == Rsp && r.Ok? ==> Word(now, 64 + 128 * i) == 3
    ensures dir == Rsp && r.Err? ==> Word(now, 64 + 128 * i) == Word(was, 64 + 128 * i)
    ensures forall j: nat :: j < g.numSlots && j != i ==> Word(now, 64 + 128 * j) == Word(was, 64 + 128 * j)
  {
    if dir == Rsp && r.Err? {
      StatusUntouched(was, g, i, p, r, now);
    } else {
      StatusStored(was, g, dir, i, id, p, r, now);
    }
    forall j: nat | j < g.numSlots && j != i ensures Word(now, 64 + 128 * j) == Word(was, 64 + 128 * j) {
      OtherStatus(was, g, dir, i, id, p, r, now, j);
    }
  }

  lemma StatusStored(was: seq<byte>, g: Geometry, dir: Dir, i: nat, id: seq<byte>, p: Payload,
                     r: Result<Option<Handle>>, now: seq<byte>)
    requires Sound(g) && i < g.numSlots && MappedSize(g) <= |was| && (dir == Req || r.Ok?)
    requires Made(was, Stores(g, dir, i, id, p, r), now)
    ensures |now| == |was|
    ensures Word(now, 64 + 128 * i) == if dir == Rsp then 3 else if r.Ok? then 1 else 0
  {
    var st := if dir == Rsp then Done else if r.Ok? then Ready else Free;
    var cs, w := Copies(g, dir, i, id, p, r), StatusWrite(i, st);
    hide Copies, Stores, StatusWrite, FromLittleEndian, ApplyAll, Made, AllFit;
    StoresEnd(g, dir, i, id, p, r);
    LastWrite(was, cs, w, now);
    StoredWord(ApplyAll(was, cs), i, st);
  }

  lemma StoresEnd(g: Geometry, dir: Dir, i: nat, id: seq<byte>, p: Payload, r: Result<Option<Handle>>)
    requires dir == Req || r.Ok?
    ensures Stores(g, dir, i, id, p, r)
         == Copies(g, dir, i, id, p, r) + [StatusWrite(i, if dir == Rsp then Done else if r.Ok? then Ready else Free)]
  {
    hide Copies, StatusWrite;
  }

  lemma LastWrite(was: seq<byte>, ws: seq<Write>, w: Write, now: seq<byte>)
    requires Made(was, ws + [w], now)
    ensures AllFit(was, ws) && Fits(was, w) && now == Splice(ApplyAll(was, ws), w)
  {
    assert forall j :: 0 <= j < |ws| ==> (ws + [w])[j] == ws[j];
    assert (ws + [w])[|ws|] == w;
    ApplySnoc(was, ws, w);
  }

  lemma StatusUntouched(was: seq<byte>, g: Geometry, i: nat, p: Payload, r: Result<Option<Handle>>, now: seq<byte>)
    requires Sound(g) && i < g.numSlots && MappedSize(g) <= |was| && r.Err?
    requires r == Err(MetaTooLarge) || MetaFits(g, Rsp, p)
    requires Made(was, Stores(g, Rsp, i, [], p, r), now)
    ensures |now| == |was| && Word(now, 64 + 128 * i) == Word(was, 64 + 128 * i)
  {
    var b, ws := 64 + 128 * i, Stores(g, Rsp, i, [], p, r);
    assert ws == Copies(g, Rsp, i, [], p, r) by {
      hide Copies;
    }
    hide Stores, Copies, MetaFits, ArenaBase, ArenaEnd;
    forall a | b <= a < b + 4 ensures |now| == |was| && now[a] == was[a] {
      forall j | 0 <= j < |ws| ensures a < ws[j].off || ws[j].off + |ws[j].data| <= a {
        CopiesInFootprint(g, Rsp, i, [], p, r, j);
      }
      ApplyFrame(was, ws, a);
    }
    SameSlice(was, now, b, b + 4);
  }

  lemma OtherStatus(was: seq<byte>, g: Geometry, dir: Dir, i: nat, id: seq<byte>, p: Payload,
                    r: Result<Option<Handle>>, now: seq<byte>, j: nat)
    requires Sound(g) && i < g.numSlots && j < g.numSlots && j != i && MappedSize(g) <= |was|
    requires r == Err(MetaTooLarge) || MetaFits(g, dir, p)
    requires Made(was, Stores(g, dir, i, id, p, r), now)
    ensures |now| == |was| && Word(now, 64 + 128 * j) == Word(was, 64 + 128 * j)
  {
    var b := 64 + 128 * j;
    hide Stores, MetaFits, ArenaBase, ArenaEnd;
    forall a | b <= a < b + 4 ensures |now| == |was| && now[a] == was[a] {
      WriteFrame(was, g, dir, i, id, p, r, now, a);
    }
    SameSlice(was, now, b, b + 4);
  }

  // ---- A finished slot ---------------------------------------------------------------------------

  /** Where a direction's pointer fields begin. */
  function Fields(dir: Dir, i: nat): nat {
    64 + 128 * i + if dir == Req then 44 else 68
  }

  /** These bytes stand at this place of the heap. */
  predicate BytesAt(mem: seq<byte>, g: Geometry, offset: nat, data: seq<byte>) {
    && offset + |data| <= g.heapSize && MappedSize(g) <= |mem|
    && forall k :: 0 <= k < |data| ==> mem[g.heapOffset + offset + k] == data[k]
  }

  /** The 36 bytes of an id, cut or padded with zeros. */
  predicate IdAt(mem: seq<byte>, off: nat, id: seq<byte>) {
    off + 36 <= |mem| && forall a :: off <= a < off + 36 ==> mem[a] == if a - off < |id| then id[a - off] else 0
  }

  /** What a finished call leaves in the slot's own fields: the id cut or padded to 36 bytes and the method,
      or the status code; where the metadata lie and how long they are; no body, or where it lies, or which
      region has it. */
  lemma FinishedBytes(was: seq<byte>, segments: map<string, Overflow.Segment>, os: Overflow.Platform,
                      segments': map<string, Overflow.Segment>, config: Config, g: Geometry, dir: Dir, i: nat,
                      id: seq<byte>, p: Payload, h: Option<Handle>, now: seq<byte>)
    requires Sound(g) && i < g.numSlots && MappedSize(g) <= |was|
    requires Outcome(segments, os, segments', config, g, dir, i, p, Ok(h))
    requires Made(was, Stores(g, dir, i, id, p, Ok(h)), now)
    ensures |now| == |was| && Fields(dir, i) + 20 <= g.heapOffset
    ensures dir == Req ==>
              && IdAt(now, 64 + 128 * i + 4, id)
              && now[64 + 128 * i + 40] == p.tag % 256
    ensures dir == Rsp ==> Half(now, 64 + 128 * i + 64) == p.tag % 65536
    ensures Word(now, Fields(dir, i)) == ArenaBase(g, dir, i) && Half(now, Fields(dir, i) + 4) == |p.meta| % 65536
    ensures BytesAt(now, g, ArenaBase(g, dir, i), p.meta)
    ensures p.body == [] ==>
              && Word(now, Fields(dir, i) + 8) == 0 && Word(now, Fields(dir, i) + 12) == 0
              && now[Fields(dir, i) + 16] == 0 && h == None
    ensures 0 < |p.body| <= ArenaLen(g, dir) - Align8(|p.meta|) ==>
              && Word(now, Fields(dir, i) + 8) == ArenaBase(g, dir, i) + Align8(|p.meta|)
              && Word(now, Fields(dir, i) + 12) == |p.body| && now[Fields(dir, i) + 16] == 0 && h == None
              && BytesAt(now, g, ArenaBase(g, dir, i) + Align8(|p.meta|), p.body)
    ensures |p.body| > 0 && |p.body| > ArenaLen(g, dir) - Align8(|p.meta|) ==>
              && Word(now, Fields(dir, i) + 8) == 0 && Word(now, Fields(dir, i) + 12) == |p.body| % 0x1_0000_0000
              && h.Some? && now[Fields(dir, i) + 16] == h.value.generation + 1
  {
    PlaceExact(g, dir, i, p);
    MarkerFits(segments, os, segments', config, g, dir, i, p, h);
    hide Stored, Made, Stores, MarkerOk, ArenaBase, ArenaLen, Align8, PlaceOf, BytesAt, IdAt, Word, Half;
    assert h.Some? <==> PlaceOf(g, dir, i, p).Spill?;
    assert MarkerOf(h) <= 255 by {
      hide Overflow.FirstOpen, FilledPages, NameFor;
    }
    hide Outcome;
    WriteStores(was, g, dir, i, id, p, h, now);
    StoredParts(now, g, dir, i, id, p, MarkerOf(h));
    HeadBytes(now, g, dir, i, id, p);
    MetaFields(now, g, dir, i, p);
    BodyPointers(now, g, dir, i, p, MarkerOf(h));
  }

  lemma HeadBytes(mem: seq<byte>, g: Geometry, dir: Dir, i: nat, id: seq<byte>, p: Payload)
    requires Sound(g) && i < g.numSlots && MappedSize(g) <= |mem| && AllAt(mem, SettledHead(dir, i, id, p))
    ensures dir == Req ==>
              && IdAt(mem, 64 + 128 * i + 4, id)
              && mem[64 + 128 * i + 40] == p.tag % 256
    ensures dir == Rsp ==> Half(mem, 64 + 128 * i + 64) == p.tag % 65536
  {
    var ws := SettledHead(dir, i, id, p);
    hide U16Bytes, PaddedId, Half, IdAt;
    match dir {
      case Req =>
        assert At(mem, ws[0]) && At(mem, ws[1]);
        IdAndMethod(mem, 64 + 128 * i, id, p.tag % 256);
      case Rsp =>
        assert At(mem, ws[0]);
        HalfAt(mem, 64 + 128 * i + 64, p.tag);
    }
  }

  lemma IdAndMethod(mem: seq<byte>, b: nat, id: seq<byte>, tag: byte)
    requires At(mem, Write(b + 4, PaddedId(id))) && At(mem, Write(b + 40, [tag]))
    ensures b + 41 <= |mem| && mem[b + 40] == tag
    ensures IdAt(mem, b + 4, id)
  {
    PaddedBytes(mem, b + 4, id);
    assert mem[b + 40] == mem[b + 40..b + 41][0];
  }

  lemma HalfAt(mem: seq<byte>, off: nat, n: nat)
    requires At(mem, Write(off, U16Bytes(n)))
    ensures off + 2 <= |mem| && Half(mem, off) == n % 65536
  {
    hide U16Bytes, FromLittleEndian;
    U16At(mem, off, n);
  }

  lemma PaddedBytes(mem: seq<byte>, off: nat, id: seq<byte>)
    requires off + 36 <= |mem| && mem[off..off + 36] == PaddedId(id)
    ensures IdAt(mem, off, id)
  {
    forall a | off <= a < off + 36 ensures mem[a] == if a - off < |id| then id[a - off] else 0 {
      assert mem[a] == mem[off..off + 36][a - off] == PaddedId(id)[a - off];
    }
  }

  lemma MetaFields(mem: seq<byte>, g: Geometry, dir: Dir, i: nat, p: Payload)
    requires Sound(g) && i < g.numSlots && MappedSize(g) <= |mem| && MetaFits(g, dir, p)
    requires AllAt(mem, MetaWrites(g, dir, i, p))
    ensures Fields(dir, i) + 20 <= g.heapOffset
    ensures Word(mem, Fields(dir, i)) == ArenaBase(g, dir, i) && Half(mem, Fields(dir, i) + 4) == |p.meta| % 65536
    ensures BytesAt(mem, g, ArenaBase(g, dir, i), p.meta)
  {
    MetaPointer(mem, g, dir, i, p);
    ArenaInHeap(g, dir, i);
    SmallMod(ArenaBase(g, dir, i));
    assert At(mem, MetaWrites(g, dir, i, p)[0]);
    hide ArenaBase, ArenaLen, AllAt, U16Bytes, U32Bytes, FromLittleEndian;
    SliceAt(mem, g, ArenaBase(g, dir, i), p.meta);
  }

  lemma SliceAt(mem: seq<byte>, g: Geometry, offset: nat, data: seq<byte>)
    requires At(mem, Write(g.heapOffset + offset, data)) && offset + |data| <= g.heapSize && MappedSize(g) <= |mem|
    ensures BytesAt(mem, g, offset, data)
  {
    var lo := g.heapOffset + offset;
    forall k | 0 <= k < |data| ensures mem[lo + k] == data[k] {
      assert mem[lo..lo + |data|][k] == data[k];
    }
  }

  lemma BodyPointers(mem: seq<byte>, g: Geometry, dir: Dir, i: nat, p: Payload, marker: nat)
    requires Sound(g) && i < g.numSlots && MappedSize(g) <= |mem| && marker <= 255
    requires AllAt(mem, BodyWrites(g, dir, i, p, marker))
    ensures Fields(dir, i) + 20 <= g.heapOffset
    ensures var at, len, mark := Word(mem, Fields(dir, i) + 8), Word(mem, Fields(dir, i) + 12),
              mem[Fields(dir, i) + 16];
            match PlaceOf(g, dir, i, p)
            case Empty => at == 0 && len == 0 && mark == 0
            case Inline(off) => at == off && len == |p.body| && mark == 0 && BytesAt(mem, g, off, p.body)
            case Spill => at == 0 && len == |p.body| % 0x1_0000_0000 && mark == marker
  {
    hide BodyWrites, AllAt, PlaceOf, BytesAt, DecodePointer, Word;
    PointerReadsBack(mem, g, dir, i, p, marker);
    PointerWords(mem, dir, i);
    if PlaceOf(g, dir, i, p).Inline? {
      InlineBytes(mem, g, dir, i, p, marker);
      SmallMod(PlaceOf(g, dir, i, p).offset);
      SmallMod(|p.body|);
    }
  }

  lemma PointerWords(mem: seq<byte>, dir: Dir, i: nat)
    requires SlotBase(i) + SLOT_META_SIZE <= |mem|
    ensures DecodePointer(mem, dir, i)
         == BodyPointer(Word(mem, Fields(dir, i) + 8), Word(mem, Fields(dir, i) + 12), mem[Fields(dir, i) + 16])
  {
    hide FromLittleEndian;
  }

  lemma InlineBytes(mem: seq<byte>, g: Geometry, dir: Dir, i: nat, p: Payload, marker: nat)
    requires Sound(g) && i < g.numSlots && MappedSize(g) <= |mem| && PlaceOf(g, dir, i, p).Inline?
    requires AllAt(mem, BodyWrites(g, dir, i, p, marker))
    ensures var off := PlaceOf(g, dir, i, p).offset;
            off < U32 && |p.body| < U32 && BytesAt(mem, g, off, p.body)
  {
    BodyOffsetBounds(g, dir, i, p);
    ArenaInHeap(g, dir, i);
    assert At(mem, BodyWrites(g, dir, i, p, marker)[0]);
    hide PlaceOf, AllAt, BodyFields, ArenaBase, ArenaEnd;
    SliceAt(mem, g, PlaceOf(g, dir, i, p).offset, p.body);
  }

  // ---- Reading any bytes at all ------------------------------------------------------------------

  lemma WordBound(mem: seq<byte>, off: nat)
    requires off + 4 <= |mem|
    ensures Word(mem, off) < U32 && Half(mem, off) < U16
  {
    LittleEndianBound(mem[off..off + 4]);
    LittleEndianBound(mem[off..off + 2]);
    Widths();
  }

  lemma AnyRange(mem: seq<byte>, g: Geometry, offset: nat, len: nat)
    requires MappedSize(g) <= |mem| && offset < U32 && len < U32
    ensures var r := HeapRead(mem, g, offset, len);
            && (r.Some? <==> offset + len <= g.heapSize)
            && (r.Some? ==> |r.value| == len && BytesAt(mem, g, offset, r.value))
  {
  }

  /** `read_request` and `read_response` on a slot with any content, written by anyone or by nobody: the
      metadata must lie in the heap; the body is empty, or must lie in the heap, or in a region that is
      there and long enough; else this is the error. */
  lemma ReadAnything(mem: seq<byte>, segments: map<string, Overflow.Segment>, config: Config, g: Geometry, dir: Dir,
                     i: nat, metaAt: nat, metaLen: nat, at: nat, len: nat, name: string, r: Result<Payload>)
    requires Sound(g) && i < g.numSlots && MappedSize(g) <= |mem| && Fields(dir, i) + 20 <= |mem|
    requires SlotBase(i) + SLOT_META_SIZE <= |mem| && r == ReadSlot(mem, segments, config, g, dir, i)
    requires metaAt == Word(mem, Fields(dir, i)) && metaLen == Half(mem, Fields(dir, i) + 4)
    requires at == Word(mem, Fields(dir, i) + 8) && len == Word(mem, Fields(dir, i) + 12)
    requires mem[Fields(dir, i) + 16] > 0 ==>
               name == Names.OverflowName(config.prefix, config.name, dir, i, mem[Fields(dir, i) + 16] - 1)
    ensures r.Ok? <==>
              && metaAt + metaLen <= g.heapSize
              && (len > 0 ==> if mem[Fields(dir, i) + 16] == 0 then at + len <= g.heapSize
                              else name in segments && len <= |segments[name].data|)
    ensures r.Ok? ==>
              && |r.value.meta| == metaLen && BytesAt(mem, g, metaAt, r.value.meta)
              && |r.value.body| == len
              && (len > 0 ==> if mem[Fields(dir, i) + 16] == 0 then BytesAt(mem, g, at, r.value.body)
                              else r.value.body == segments[name].data[..len])
              && r.value.tag == if dir == Req then mem[64 + 128 * i + 40] else Half(mem, 64 + 128 * i + 64)
    ensures r.Err? ==>
              r.error == if metaAt + metaLen > g.heapSize || mem[Fields(dir, i) + 16] == 0 then HeapBounds
                         else OverflowFailed(if name in segments then Overflow.TooSmall else Overflow.NoSuchRegion)
  {
    hide BytesAt, ReadBody, DecodeMeta, DecodeTag, Names.OverflowName;
    AnyMeta(mem, g, dir, i, metaAt, metaLen);
    AnyBody(mem, segments, config, g, dir, i, at, len, name);
    AnyTag(mem, dir, i);
    hide Word, Half;
  }

  lemma AnyTag(mem: seq<byte>, dir: Dir, i: nat)
    requires SlotBase(i) + SLOT_META_SIZE <= |mem|
    ensures DecodeTag(mem, dir, i) == if dir == Req then mem[64 + 128 * i + 40] else Half(mem, 64 + 128 * i + 64)
  {
    hide FromLittleEndian;
  }

  lemma AnyMeta(mem: seq<byte>, g: Geometry, dir: Dir, i: nat, metaAt: nat, metaLen: nat)
    requires MappedSize(g) <= |mem| && SlotBase(i) + SLOT_META_SIZE <= |mem|
    requires metaAt == Word(mem, Fields(dir, i)) && metaLen == Half(mem, Fields(dir, i) + 4)
    ensures var meta := DecodeMeta(mem, g, dir, i);
            && (meta.Some? <==> metaAt + metaLen <= g.heapSize)
            && (meta.Some? ==> |meta.value| == metaLen && BytesAt(mem, g, metaAt, meta.value))
  {
    WordBound(mem, Fields(dir, i));
    WordBound(mem, Fields(dir, i) + 4);
    AnyRange(mem, g, metaAt, metaLen);
    hide HeapRead, BytesAt, FromLittleEndian;
  }

  lemma AnyBody(mem: seq<byte>, segments: map<string, Overflow.Segment>, config: Config, g: Geometry, dir: Dir,
                i: nat, at: nat, len: nat, name: string)
    requires MappedSize(g) <= |mem| && SlotBase(i) + SLOT_META_SIZE <= |mem|
    requires at == Word(mem, Fields(dir, i) + 8) && len == Word(mem, Fields(dir, i) + 12)
    requires mem[Fields(dir, i) + 16] > 0 ==>
               name == Names.OverflowName(config.prefix, config.name, dir, i, mem[Fields(dir, i) + 16] - 1)
    ensures var inline, body := mem[Fields(dir, i) + 16] == 0, ReadBody(mem, segments, config, g, dir, i);
            && (body.Ok? <==> (len > 0 ==> if inline then at + len <= g.heapSize
                                           else name in segments && len <= |segments[name].data|))
            && (body.Ok? ==> |body.value| == len
                             && (len > 0 ==> if inline then BytesAt(mem, g, at, body.value)
                                             else body.value == segments[name].data[..len]))
            && (body.Err? ==> body.error == if inline then HeapBounds
                                            else OverflowFailed(if name in segments then Overflow.TooSmall
                                                                else Overflow.NoSuchRegion))
  {
    hide HeapRead, BytesAt, Word, DecodePointer, Names.OverflowName, Overflow.ReadSegment, FromLittleEndian;
    PointerWords(mem, dir, i);
    WordBound(mem, Fields(dir, i) + 8);
    WordBound(mem, Fields(dir, i) + 12);
    AnyRange(mem, g, at, len);
    AnyRegion(segments, name, len);
  }

  lemma AnyRegion(segments: map<string, Overflow.Segment>, name: string, len: nat)
    ensures var r := Overflow.ReadSegment(segments, name, len);
            && (r.Ok? <==> name in segments && len <= |segments[name].data|)
            && (r.Ok? ==> |r.value| == len && r.value == segments[name].data[..len])
            && (r.Err? ==> r.error == if name in segments then Overflow.TooSmall else Overflow.NoSuchRegion)
  {
  }

  /** The id that is read: the bytes of the field up to the first zero, or all 36. */
  lemma ReadAnyId(mem: seq<byte>, i: nat)
    requires SlotBase(i) + SLOT_META_SIZE <= |mem|
    ensures var b, id := 64 + 128 * i, DecodeId(mem, i);
            && |id| <= 36 && (forall k :: 0 <= k < |id| ==> id[k] == mem[b + 4 + k] != 0)
            && (|id| < 36 ==> mem[b + 4 + |id|] == 0)
  {
    var s := mem[SlotBase(i) + 4..SlotBase(i) + 40];
    TrimNoZero(s);
    forall k | 0 <= k < |TrimZero(s)| ensures TrimZero(s)[k] == s[k] != 0 {
      assert TrimZero(s)[k] in TrimZero(s);
    }
  }
}
