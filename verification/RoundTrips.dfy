/** What the region's methods add up to: a peer finds the layout that was laid down, what is written is
    what is read, and nothing else changes. */
module RoundTrips {
  import opened Bytes
  import opened Layout
  import opened Slots
  import Names
  import Overflow
  import opened ShmRegion

  // ---- A fresh region and its peers ---------------------------------------------------------------

  lemma HeaderApart(g: Geometry)
    ensures PairwiseApart(HeaderWrites(g))
    ensures forall mem: seq<byte>, j :: SHM_HEADER_SIZE <= |mem| && 0 <= j < 6 ==> Fits(mem, HeaderWrites(g)[j])
  {
    hide U32Bytes;
  }

  lemma {:induction false} ApartLand(mem: seq<byte>, ws: seq<Write>, k: nat)
    requires PairwiseApart(ws) && AllFit(mem, ws) && k <= |ws|
    ensures AllFit(mem, ws[..k]) && AllAt(ApplyAll(mem, ws[..k]), ws[..k])
  {
    if k > 0 {
      ApartLand(mem, ws, k - 1);
      assert Fits(mem, ws[k - 1]);
      hide PairwiseApart, AllFit, Splice, Fits;
      ApplySnoc(mem, ws[..k - 1], ws[k - 1]);
      assert ws[..k] == ws[..k - 1] + [ws[k - 1]];
      SpliceNext(ApplyAll(mem, ws[..k - 1]), ws, k - 1);
    }
  }

  lemma WordAt(mem: seq<byte>, off: nat, n: nat)
    requires At(mem, Write(off, U32Bytes(n)))
    ensures off + 4 <= |mem| && Word(mem, off) == n % U32
  {
    U32At(mem, off, n);
  }

  lemma FreshWords(mem: seq<byte>, g: Geometry)
    requires AllAt(mem, HeaderWrites(g)) && SHM_HEADER_SIZE <= |mem|
    ensures Word(mem, 0) == SHM_MAGIC && Word(mem, 4) == SHM_VERSION
    ensures Word(mem, 8) == g.numSlots % U32 && Word(mem, 12) == g.heapOffset % U32 && Word(mem, 16) == g.heapSize % U32
  {
    var ws := HeaderWrites(g);
    hide U32Bytes, LittleEndian, Word;
    assert At(mem, ws[0]) && At(mem, ws[1]) && At(mem, ws[2]) && At(mem, ws[3]) && At(mem, ws[4]);
    WordAt(mem, 0, SHM_MAGIC);
    WordAt(mem, 4, SHM_VERSION);
    WordAt(mem, 8, g.numSlots);
    WordAt(mem, 12, g.heapOffset);
    WordAt(mem, 16, g.heapSize);
  }

  lemma ZeroWord(mem: seq<byte>, off: nat)
    requires off + 4 <= |mem| && forall a :: off <= a < off + 4 ==> mem[a] == 0
    ensures Word(mem, off) == 0
  {
    AllZero(mem[off..off + 4]);
  }

  lemma {:induction false} AllZero(s: seq<byte>)
    requires forall j :: 0 <= j < |s| ==> s[j] == 0
    ensures FromLittleEndian(s) == 0
  {
    if s != [] {
      AllZero(s[1..]);
    }
  }

  lemma FreshSlotsFree(len: nat, g: Geometry, mem: seq<byte>, i: nat)
    requires Made(Zeros(len), HeaderWrites(g), mem) && SlotBase(i) + 4 <= len
    ensures StatusAt(mem, i) == StatusWord(Free)
  {
    forall a | SlotBase(i) <= a < SlotBase(i) + 4 ensures mem[a] == 0 {
      hide U32Bytes;
      ApplyFrame(Zeros(len), HeaderWrites(g), a);
    }
    ZeroWord(mem, SlotBase(i));
  }

  /** Whoever validates a region that `init_control` has laid out accepts it and derives the very
      geometry of the initialiser, whatever its own configuration says, exactly when the three numbers
      fit the header's 32-bit words; and every slot starts Free. */
  lemma LayoutAgreement(len: nat, config: Config, mem: seq<byte>)
    requires MappedSize(ComputeLayout(config.numSlots, config.regionSize)) <= len
    requires Made(Zeros(len), HeaderWrites(ComputeLayout(config.numSlots, config.regionSize)), mem)
    ensures var g := ComputeLayout(config.numSlots, config.regionSize);
            && |mem| == len && ParseHeader(mem).Some?
            && (ParseHeader(mem) == Some(g) <==> g.numSlots < U32 && g.heapOffset < U32 && g.heapSize < U32)
            && (g.numSlots > 0 && g.heapSize < U32 ==> Sound(g))
            && forall i: nat :: i < g.numSlots ==> StatusAt(mem, i) == StatusWord(Free)
  {
    var g := ComputeLayout(config.numSlots, config.regionSize);
    var ws := HeaderWrites(g);
    HeaderApart(g);
    ApartLand(Zeros(len), ws, 6);
    assert ws[..6] == ws;
    FreshWords(mem, g);
    hide HeaderWrites, Word;
    forall i: nat | i < g.numSlots ensures SlotBase(i) + 4 <= |mem| && StatusAt(mem, i) == StatusWord(Free) {
      FreshSlotsFree(len, g, mem, i);
    }
    hide Made;
    Smaller(g.numSlots);
    Smaller(g.heapOffset);
    Smaller(g.heapSize);
  }

  lemma Smaller(n: nat)
    ensures n % U32 <= n
    ensures n % U32 == n <==> n < U32
  {
  }

  // ---- One write call --------------------------------------------------------------------------------

  lemma WriteFits(mem: seq<byte>, g: Geometry, dir: Dir, i: nat, id: seq<byte>, p: Payload, marker: nat, k: nat)
    requires Sound(g) && i < g.numSlots && MappedSize(g) <= |mem| && MetaFits(g, dir, p)
    requires k < |Program(g, dir, i, id, p, marker)|
    ensures Fits(mem, Program(g, dir, i, id, p, marker)[k])
  {
    ProgramInFootprint(g, dir, i, id, p, marker, k);
    FootprintFits(g, dir, i, Program(g, dir, i, id, p, marker)[k], mem);
  }

  /** A program carried out in order lands completely. */
  lemma {:induction false} ProgramLands(mem: seq<byte>, g: Geometry, dir: Dir, i: nat, id: seq<byte>, p: Payload,
                                        marker: nat, k: nat)
    requires Sound(g) && i < g.numSlots && MappedSize(g) <= |mem| && MetaFits(g, dir, p)
    requires k <= |Program(g, dir, i, id, p, marker)|
    ensures AllFit(mem, Program(g, dir, i, id, p, marker)[..k])
    ensures AllAt(ApplyAll(mem, Program(g, dir, i, id, p, marker)[..k]), Landed(g, dir, i, id, p, marker, k))
  {
    hide Program, MetaFits, MappedSize, AllFit, AllAt, ApplyAll, Splice, Landed, Fits;
    var ws := Program(g, dir, i, id, p, marker);
    if k == 0 {
      LandsNone(mem, g, dir, i, id, p, marker);
    } else {
      ProgramLands(mem, g, dir, i, id, p, marker, k - 1);
      WriteFits(mem, g, dir, i, id, p, marker, k - 1);
      var done := ws[..k - 1];
      var now := ApplyAll(mem, done);
      ApplySnoc(mem, done, ws[k - 1]);
      assert ws[..k] == done + [ws[k - 1]];
      FitsStill(mem, now, ws[k - 1]);
      LandNext(now, g, dir, i, id, p, marker, k - 1);
    }
  }

  lemma LandsNone(mem: seq<byte>, g: Geometry, dir: Dir, i: nat, id: seq<byte>, p: Payload, marker: nat)
    ensures AllFit(mem, Program(g, dir, i, id, p, marker)[..0])
    ensures AllAt(ApplyAll(mem, Program(g, dir, i, id, p, marker)[..0]), Landed(g, dir, i, id, p, marker, 0))
  {
    assert Landed(g, dir, i, id, p, marker, 0) == [];
    hide Program, Settled;
  }

  lemma FitsStill(mem: seq<byte>, mem': seq<byte>, w: Write)
    requires Fits(mem, w) && |mem'| == |mem|
    ensures Fits(mem', w)
  {
  }

  lemma StatusApart(g: Geometry, dir: Dir, i: nat, st: Status, dir': Dir, i': nat, w: Write)
    requires Sound(g) && i < g.numSlots && i' < g.numSlots && InFootprint(g, dir', i', w)
    ensures Apart(w, StatusWrite(i, st))
  {
    hide U32Bytes;
  }

  /** After a successful write everything is in place, the status published last of all. */
  lemma WriteStores(was: seq<byte>, g: Geometry, dir: Dir, i: nat, id: seq<byte>, p: Payload, h: Option<Handle>,
                    now: seq<byte>)
    requires Sound(g) && i < g.numSlots && MappedSize(g) <= |was| && MetaFits(g, dir, p)
    requires Made(was, Stores(g, dir, i, id, p, Ok(h)), now)
    ensures |now| == |was| && Stored(now, g, dir, i, id, p, MarkerOf(h))
  {
    var m := MarkerOf(h);
    var ws := Program(g, dir, i, id, p, m);
    var st := if dir == Req then Ready else Done;
    assert Stores(g, dir, i, id, p, Ok(h)) == ws + [StatusWrite(i, st)];
    ProgramLands(was, g, dir, i, id, p, m, |ws|);
    assert ws[..|ws|] == ws;
    LandedAll(g, dir, i, id, p, m);
    SettledInFootprint(g, dir, i, id, p, m);
    hide Program, Settled, Stores, MetaFits;
    var w := StatusWrite(i, st);
    assert Fits(was, w);
    ApplySnoc(was, ws, w);
    var all := Settled(g, dir, i, id, p, m);
    forall j | 0 <= j < |all| ensures Apart(all[j], w) {
      StatusApart(g, dir, i, st, dir, i, all[j]);
    }
    SpliceKeepsAll(ApplyAll(was, ws), w, all);
  }

  /** The only bytes a write call may touch: its direction's footprint and the slot's status word. */
  predicate MayTouch(g: Geometry, dir: Dir, i: nat, a: nat) {
    ByteInFootprint(g, dir, i, a) || SlotBase(i) <= a < SlotBase(i) + 4
  }

  lemma StoresInReach(g: Geometry, dir: Dir, i: nat, id: seq<byte>, p: Payload, r: Result<Option<Handle>>, k: nat)
    requires r == Err(MetaTooLarge) || MetaFits(g, dir, p)
    requires k < |Stores(g, dir, i, id, p, r)|
    ensures var w := Stores(g, dir, i, id, p, r)[k];
            InFootprint(g, dir, i, w) || (w.off == SlotBase(i) && |w.data| == 4)
  {
    if k < |Copies(g, dir, i, id, p, r)| {
      CopiesInFootprint(g, dir, i, id, p, r, k);
    }
    hide Copies, InFootprint, U32Bytes;
  }

  lemma CopiesInFootprint(g: Geometry, dir: Dir, i: nat, id: seq<byte>, p: Payload, r: Result<Option<Handle>>, k: nat)
    requires r == Err(MetaTooLarge) || MetaFits(g, dir, p)
    requires k < |Copies(g, dir, i, id, p, r)|
    ensures InFootprint(g, dir, i, Copies(g, dir, i, id, p, r)[k])
  {
    CopiesArePrefix(g, dir, i, id, p, r, k);
    hide Copies, InFootprint, Program;
    ProgramInFootprint(g, dir, i, id, p, if r.Ok? then MarkerOf(r.value) else 0, k);
  }

  lemma CopiesArePrefix(g: Geometry, dir: Dir, i: nat, id: seq<byte>, p: Payload, r: Result<Option<Handle>>, k: nat)
    requires k < |Copies(g, dir, i, id, p, r)|
    ensures var m := if r.Ok? then MarkerOf(r.value) else 0;
            k < |Program(g, dir, i, id, p, m)| && Copies(g, dir, i, id, p, r)[k] == Program(g, dir, i, id, p, m)[k]
    ensures r == Err(MetaTooLarge) ==> k < HeadLen(dir)
  {
    hide U16Bytes, U32Bytes, BodyWrites, ShortId, Zeros;
  }

  lemma OutOfReach(g: Geometry, dir: Dir, i: nat, w: Write, a: nat)
    requires InFootprint(g, dir, i, w) || (w.off == SlotBase(i) && |w.data| == 4)
    requires !MayTouch(g, dir, i, a)
    ensures a < w.off || w.off + |w.data| <= a
  {
    hide ArenaBase, ArenaEnd;
  }

  /** Every byte outside the footprint of the slot's direction, the status word aside, is as before,
      whether the call succeeded or not. */
  lemma WriteFrame(was: seq<byte>, g: Geometry, dir: Dir, i: nat, id: seq<byte>, p: Payload, r: Result<Option<Handle>>,
                   now: seq<byte>, a: nat)
    requires r == Err(MetaTooLarge) || MetaFits(g, dir, p)
    requires Made(was, Stores(g, dir, i, id, p, r), now) && a < |was| && !MayTouch(g, dir, i, a)
    ensures |now| == |was| && now[a] == was[a]
  {
    var ws := Stores(g, dir, i, id, p, r);
    hide Stores, MayTouch, InFootprint, MetaFits;
    forall j | 0 <= j < |ws| ensures a < ws[j].off || ws[j].off + |ws[j].data| <= a {
      StoresInReach(g, dir, i, id, p, r, j);
      OutOfReach(g, dir, i, ws[j], a);
    }
    ApplyFrame(was, ws, a);
  }

  lemma MarkerFits(segments: map<string, Overflow.Segment>, os: Overflow.Platform,
                   segments': map<string, Overflow.Segment>,
                   config: Config, g: Geometry, dir: Dir, i: nat, p: Payload, h: Option<Handle>)
    requires Outcome(segments, os, segments', config, g, dir, i, p, Ok(h))
    ensures MetaFits(g, dir, p) && MarkerOk(g, dir, i, p, MarkerOf(h))
    ensures PlaceOf(g, dir, i, p).Spill? ==>
              && NameFor(config, dir, i)(MarkerOf(h) - 1) in segments'
              && segments'[NameFor(config, dir, i)(MarkerOf(h) - 1)].data == FilledPages(p.body)
  {
    hide FilledPages, NameFor, Overflow.FirstOpen;
  }

  /** What is stored reads back, whatever the placement: empty, inline or overflow. */
  lemma StoredReadsBack(mem: seq<byte>, segments: map<string, Overflow.Segment>, config: Config,
                        g: Geometry, dir: Dir, i: nat, id: seq<byte>, p: Payload, marker: nat)
    requires Sound(g) && i < g.numSlots && MappedSize(g) <= |mem| && MetaFits(g, dir, p)
    requires MarkerOk(g, dir, i, p, marker)
    requires Stored(mem, g, dir, i, id, p, marker)
    requires PlaceOf(g, dir, i, p).Spill? ==>
               && NameFor(config, dir, i)(marker - 1) in segments
               && segments[NameFor(config, dir, i)(marker - 1)].data == FilledPages(p.body)
    ensures SlotBase(i) + SLOT_META_SIZE <= |mem|
    ensures ReadSlot(mem, segments, config, g, dir, i) == Ok(Received(dir, p))
    ensures dir == Req ==> DecodeId(mem, i) == ReceivedId(id)
  {
    StoredHead(mem, g, dir, i, id, p, marker);
    StoredMeta(mem, g, dir, i, id, p, marker);
    StoredBody(mem, g, dir, i, id, p, marker);
    BodyComesBack(mem, segments, config, g, dir, i, p, marker);
    hide Stored, ReadBody, DecodeMeta, DecodeId, DecodeTag, ReceivedId;
  }

  lemma BodyComesBack(mem: seq<byte>, segments: map<string, Overflow.Segment>, config: Config,
                      g: Geometry, dir: Dir, i: nat, p: Payload, marker: nat)
    requires Sound(g) && i < g.numSlots && MappedSize(g) <= |mem| && MarkerOk(g, dir, i, p, marker)
    requires SlotBase(i) + SLOT_META_SIZE <= |mem|
    requires DecodeBody(mem, g, dir, i) == ExpectedBody(g, dir, i, p, marker)
    requires (PlaceOf(g, dir, i, p).Inline? ==> |p.body| < U32)
    requires PlaceOf(g, dir, i, p).Spill? ==>
               && NameFor(config, dir, i)(marker - 1) in segments
               && segments[NameFor(config, dir, i)(marker - 1)].data == FilledPages(p.body)
    ensures ReadBody(mem, segments, config, g, dir, i) == Ok(Received(dir, p).body)
  {
    var n := |p.body| % U32;
    Smaller(|p.body|);
    hide NameFor, DecodeBody, FilledPages;
    if n == 0 {
      assert p.body[..n] == [];
    } else if PlaceOf(g, dir, i, p).Spill? {
      Overflow.FreshReadsBack(segments, NameFor(config, dir, i)(marker - 1), p.body, n);
    } else {
      assert p.body[..n] == p.body;
    }
  }

  /** `write_request` then `read_request`, or `write_response` then `read_response`: what comes back is
      what was written up to the field-width casts, hence exactly that for every payload and id within
      the limits, and for no other. */
  lemma WriteThenRead(was: seq<byte>, segments: map<string, Overflow.Segment>, os: Overflow.Platform,
                      segments': map<string, Overflow.Segment>,
                      config: Config, g: Geometry, dir: Dir, i: nat, id: seq<byte>, p: Payload, h: Option<Handle>,
                      now: seq<byte>)
    requires Sound(g) && i < g.numSlots && MappedSize(g) <= |was|
    requires Outcome(segments, os, segments', config, g, dir, i, p, Ok(h))
    requires Made(was, Stores(g, dir, i, id, p, Ok(h)), now)
    ensures |now| == |was| && SlotBase(i) + SLOT_META_SIZE <= |now|
    ensures ReadSlot(now, segments', config, g, dir, i) == Ok(Received(dir, p))
    ensures ReadSlot(now, segments', config, g, dir, i) == Ok(p) <==> WithinLimits(dir, p)
    ensures dir == Req ==> (DecodeId(now, i) == id <==> ValidId(id))
  {
    MarkerFits(segments, os, segments', config, g, dir, i, p, h);
    WriteStores(was, g, dir, i, id, p, h, now);
    hide Made, Stores, Outcome, Stored, MetaFits, PlaceOf, MarkerOk;
    StoredReadsBack(now, segments', config, g, dir, i, id, p, MarkerOf(h));
    ReceivedExact(dir, p);
    ReceivedIdExact(id);
    hide ReadSlot, DecodeId, Received, ReceivedId, WithinLimits, ValidId;
  }

  // ---- The other slots ----------------------------------------------------------------------------------

  lemma NamesApart(config: Config, dir: Dir, i: nat, gen: nat, dir': Dir, i': nat, gen': nat)
    requires dir != dir' || i != i'
    ensures NameFor(config, dir, i)(gen) != NameFor(config, dir', i')(gen')
  {
    if NameFor(config, dir, i)(gen) == NameFor(config, dir', i')(gen') {
      Names.OverflowNamesInjective(config.prefix, config.name, dir, i, gen, dir', i', gen');
    }
  }

  // ---- The other slots, whatever they hold -----------------------------------------------------------------------

  /** A heap range that is empty, that no checked read returns, or that lies in the slot's own half. */
  predicate OwnRange(g: Geometry, dir: Dir, i: nat, offset: nat, len: nat) {
    || len == 0 || offset + len >= USIZE || offset + len > g.heapSize
    || (ArenaBase(g, dir, i) <= offset && offset + len <= ArenaEnd(g, dir, i))
  }

  /** The slot's pointers, in one direction, do not lead into the bytes of another slot or direction. */
  predicate OwnPointers(mem: seq<byte>, g: Geometry, dir: Dir, i: nat)
    requires SlotBase(i) + SLOT_META_SIZE <= |mem|
  {
    var f, ptr := SlotBase(i) + FieldBase(dir), DecodePointer(mem, dir, i);
    && OwnRange(g, dir, i, FromLittleEndian(mem[f..f + 4]), FromLittleEndian(mem[f + 4..f + 6]))
    && (ptr.marker == 0 ==> OwnRange(g, dir, i, ptr.offset, ptr.len))
  }

  /** The bytes of one direction of a slot are the same in both mappings. */
  ghost predicate SameFootprint(was: seq<byte>, now: seq<byte>, g: Geometry, dir: Dir, i: nat) {
    |now| == |was| && forall a :: 0 <= a < |was| && ByteInFootprint(g, dir, i, a) ==> now[a] == was[a]
  }

  lemma FootprintKept(was: seq<byte>, g: Geometry, dir: Dir, i: nat, id: seq<byte>, p: Payload,
                      r: Result<Option<Handle>>, now: seq<byte>,
                      dir': Dir, i': nat)
    requires Sound(g) && i < g.numSlots && i' < g.numSlots && (dir != dir' || i != i')
    requires r == Err(MetaTooLarge) || MetaFits(g, dir, p)
    requires Made(was, Stores(g, dir, i, id, p, r), now)
    ensures SameFootprint(was, now, g, dir', i')
  {
    hide Stores, MetaFits;
    forall a | 0 <= a < |was| && ByteInFootprint(g, dir', i', a) ensures |now| == |was| && now[a] == was[a] {
      FootprintsDisjoint(g, dir', i', dir, i, a);
      StatusOutside(g, dir', i', i, a);
      hide ByteInFootprint;
      WriteFrame(was, g, dir, i, id, p, r, now, a);
    }
  }

  lemma StatusOutside(g: Geometry, dir: Dir, i: nat, i': nat, a: nat)
    requires Sound(g) && i < g.numSlots && i' < g.numSlots && ByteInFootprint(g, dir, i, a)
    ensures !(SlotBase(i') <= a < SlotBase(i') + 4)
  {
    hide ArenaBase, ArenaEnd;
  }

  lemma SameSlice(was: seq<byte>, now: seq<byte>, lo: nat, hi: nat)
    requires lo <= hi <= |was| == |now| && forall a :: lo <= a < hi ==> now[a] == was[a]
    ensures now[lo..hi] == was[lo..hi]
  {
  }

  lemma FieldSlice(was: seq<byte>, now: seq<byte>, g: Geometry, dir: Dir, i: nat, lo: nat, hi: nat)
    requires SameFootprint(was, now, g, dir, i) && InFields(dir, i, lo, hi) && lo <= hi <= |was|
    ensures now[lo..hi] == was[lo..hi]
  {
    forall a | lo <= a < hi ensures now[a] == was[a] {
      assert ByteInFootprint(g, dir, i, a);
    }
    SameSlice(was, now, lo, hi);
  }

  lemma FieldsKept(was: seq<byte>, now: seq<byte>, g: Geometry, dir: Dir, i: nat)
    requires SameFootprint(was, now, g, dir, i) && SlotBase(i) + SLOT_META_SIZE <= |was|
    ensures var f := SlotBase(i) + FieldBase(dir);
            now[f..f + 4] == was[f..f + 4] && now[f + 4..f + 6] == was[f + 4..f + 6]
    ensures DecodePointer(now, dir, i) == DecodePointer(was, dir, i)
    ensures DecodeTag(now, dir, i) == DecodeTag(was, dir, i)
    ensures dir == Req ==> DecodeId(now, i) == DecodeId(was, i)
  {
    var b, f := SlotBase(i), SlotBase(i) + FieldBase(dir);
    FieldSlice(was, now, g, dir, i, f, f + 4);
    FieldSlice(was, now, g, dir, i, f + 4, f + 6);
    FieldSlice(was, now, g, dir, i, f + 8, f + 12);
    FieldSlice(was, now, g, dir, i, f + 12, f + 16);
    assert ByteInFootprint(g, dir, i, f + 16);
    match dir {
      case Req =>
        FieldSlice(was, now, g, dir, i, b + 4, b + 40);
        assert ByteInFootprint(g, dir, i, b + 40);
      case Rsp =>
        FieldSlice(was, now, g, dir, i, b + 64, b + 66);
    }
    hide SameFootprint, ByteInFootprint, FromLittleEndian, TrimZero;
  }

  lemma RangeKept(was: seq<byte>, now: seq<byte>, g: Geometry, dir: Dir, i: nat, offset: nat, len: nat)
    requires SameFootprint(was, now, g, dir, i) && MappedSize(g) <= |was| && OwnRange(g, dir, i, offset, len)
    ensures HeapRead(now, g, offset, len) == HeapRead(was, g, offset, len)
  {
    if offset + len < USIZE && offset + len <= g.heapSize {
      var lo := g.heapOffset + offset;
      forall a | lo <= a < lo + len ensures now[a] == was[a] {
        assert ByteInFootprint(g, dir, i, a);
      }
      SameSlice(was, now, lo, lo + len);
    }
  }

  lemma SegmentsKept(segments: map<string, Overflow.Segment>, os: Overflow.Platform,
                     segments': map<string, Overflow.Segment>,
                     config: Config, g: Geometry, dir: Dir, i: nat, p: Payload, r: Result<Option<Handle>>,
                     dir': Dir, i': nat, gen: nat, len: nat)
    requires Outcome(segments, os, segments', config, g, dir, i, p, r) && (dir != dir' || i != i')
    ensures var name := NameFor(config, dir', i')(gen);
            Overflow.ReadSegment(segments', name, len) == Overflow.ReadSegment(segments, name, len)
  {
    if r.Ok? && r.value.Some? {
      NamesApart(config, dir, i, r.value.value.generation, dir', i', gen);
    }
    hide NameFor, FilledPages, PlaceOf;
  }

  lemma AllSegmentsKept(segments: map<string, Overflow.Segment>, os: Overflow.Platform,
                        segments': map<string, Overflow.Segment>,
                        config: Config, g: Geometry, dir: Dir, i: nat, p: Payload, r: Result<Option<Handle>>,
                        dir': Dir, i': nat)
    requires Outcome(segments, os, segments', config, g, dir, i, p, r) && (dir != dir' || i != i')
    ensures SameSegments(segments, segments', NameFor(config, dir', i'))
  {
    hide Outcome, Overflow.ReadSegment;
    forall gen: nat, len: nat
      ensures Overflow.ReadSegment(segments', NameFor(config, dir', i')(gen), len)
              == Overflow.ReadSegment(segments, NameFor(config, dir', i')(gen), len)
    {
      SegmentsKept(segments, os, segments', config, g, dir, i, p, r, dir', i', gen, len);
    }
    hide NameFor;
  }

  /** Every read under these names gives the same in both namespaces. */
  ghost predicate SameSegments(segments: map<string, Overflow.Segment>, segments': map<string, Overflow.Segment>,
                               nameFor: nat -> string) {
    forall gen: nat, len: nat ::
      Overflow.ReadSegment(segments', nameFor(gen), len) == Overflow.ReadSegment(segments, nameFor(gen), len)
  }

  lemma MetaKept(was: seq<byte>, now: seq<byte>, g: Geometry, dir: Dir, i: nat)
    requires SameFootprint(was, now, g, dir, i) && MappedSize(g) <= |was| && SlotBase(i) + SLOT_META_SIZE <= |was|
    requires OwnPointers(was, g, dir, i)
    ensures DecodeMeta(now, g, dir, i) == DecodeMeta(was, g, dir, i)
  {
    FieldsKept(was, now, g, dir, i);
    var f := SlotBase(i) + FieldBase(dir);
    RangeKept(was, now, g, dir, i, FromLittleEndian(was[f..f + 4]), FromLittleEndian(was[f + 4..f + 6]));
    hide SameFootprint, OwnRange, DecodePointer, DecodeTag, DecodeId, HeapRead, FromLittleEndian;
  }

  lemma BodyKept(was: seq<byte>, now: seq<byte>, segments: map<string, Overflow.Segment>,
                 segments': map<string, Overflow.Segment>,
                 config: Config, g: Geometry, dir: Dir, i: nat)
    requires SameFootprint(was, now, g, dir, i) && MappedSize(g) <= |was| && SlotBase(i) + SLOT_META_SIZE <= |was|
    requires OwnPointers(was, g, dir, i)
    requires SameSegments(segments, segments', NameFor(config, dir, i))
    ensures ReadBody(now, segments', config, g, dir, i) == ReadBody(was, segments, config, g, dir, i)
  {
    FieldsKept(was, now, g, dir, i);
    var ptr := DecodePointer(was, dir, i);
    if ptr.marker == 0 {
      RangeKept(was, now, g, dir, i, ptr.offset, ptr.len);
    }
    hide SameFootprint, OwnRange, DecodePointer, DecodeTag, DecodeId, HeapRead, FromLittleEndian, NameFor,
      Overflow.ReadSegment;
  }

  lemma OutcomeFits(segments: map<string, Overflow.Segment>, os: Overflow.Platform,
                    segments': map<string, Overflow.Segment>,
                    config: Config, g: Geometry, dir: Dir, i: nat, p: Payload, r: Result<Option<Handle>>)
    requires Outcome(segments, os, segments', config, g, dir, i, p, r)
    ensures r == Err(MetaTooLarge) || MetaFits(g, dir, p)
  {
    hide NameFor, PlaceOf;
  }

  /** A write call, successful or not, does not change what reading any other slot, or the other direction
      of the same slot, gives, whatever that slot holds, empty or half-written or stale, so long as its
      pointers do not lead out of its own half. */
  lemma WriteKeepsReads(was: seq<byte>, segments: map<string, Overflow.Segment>, os: Overflow.Platform,
                        segments': map<string, Overflow.Segment>,
                        config: Config, g: Geometry, dir: Dir, i: nat, id: seq<byte>, p: Payload,
                        r: Result<Option<Handle>>, now: seq<byte>,
                        dir': Dir, i': nat)
    requires Sound(g) && i < g.numSlots && i' < g.numSlots && (dir != dir' || i != i') && MappedSize(g) <= |was|
    requires Outcome(segments, os, segments', config, g, dir, i, p, r) && Made(was, Stores(g, dir, i, id, p, r), now)
    requires SlotBase(i') + SLOT_META_SIZE <= |was| && OwnPointers(was, g, dir', i')
    ensures |now| == |was|
    ensures ReadSlot(now, segments', config, g, dir', i') == ReadSlot(was, segments, config, g, dir', i')
    ensures dir' == Req ==> DecodeId(now, i') == DecodeId(was, i')
  {
    OutcomeFits(segments, os, segments', config, g, dir, i, p, r);
    hide Stores, Outcome, MetaFits, SameFootprint, OwnPointers, NameFor, DecodePointer, DecodeTag, DecodeId,
      DecodeMeta, ReadBody, FromLittleEndian, SameSegments;
    FootprintKept(was, g, dir, i, id, p, r, now, dir', i');
    assert |now| == |was|;
    hide Made;
    FieldsKept(was, now, g, dir', i');
    MetaKept(was, now, g, dir', i');
    AllSegmentsKept(segments, os, segments', config, g, dir, i, p, r, dir', i');
    BodyKept(was, now, segments, segments', config, g, dir', i');
  }

  /** The pointers that a finished write leaves are the slot's own. */
  lemma StoredPointersOwn(mem: seq<byte>, g: Geometry, dir: Dir, i: nat, id: seq<byte>, p: Payload, marker: nat)
    requires Sound(g) && i < g.numSlots && MappedSize(g) <= |mem| && MetaFits(g, dir, p)
    requires MarkerOk(g, dir, i, p, marker)
    requires Stored(mem, g, dir, i, id, p, marker)
    ensures SlotBase(i) + SLOT_META_SIZE <= |mem| && OwnPointers(mem, g, dir, i)
  {
    StoredParts(mem, g, dir, i, id, p, marker);
    MetaPointerOwn(mem, g, dir, i, p);
    BodyPointerOwn(mem, g, dir, i, p, marker);
    hide Stored, OwnRange, AllAt, DecodePointer;
  }

  lemma MetaPointerOwn(mem: seq<byte>, g: Geometry, dir: Dir, i: nat, p: Payload)
    requires Sound(g) && i < g.numSlots && MappedSize(g) <= |mem| && MetaFits(g, dir, p)
    requires AllAt(mem, MetaWrites(g, dir, i, p))
    ensures var f := SlotBase(i) + FieldBase(dir);
            f + 6 <= |mem| && OwnRange(g, dir, i, FromLittleEndian(mem[f..f + 4]), FromLittleEndian(mem[f + 4..f + 6]))
  {
    hide FromLittleEndian, ArenaBase, ArenaLen;
    ArenaInHeap(g, dir, i);
    MetaPointer(mem, g, dir, i, p);
    hide MetaWrites, AllAt;
    SmallMod(ArenaBase(g, dir, i));
    assert |p.meta| % U16 <= |p.meta|;
  }

  lemma BodyPointerOwn(mem: seq<byte>, g: Geometry, dir: Dir, i: nat, p: Payload, marker: nat)
    requires Sound(g) && i < g.numSlots && MappedSize(g) <= |mem| && MarkerOk(g, dir, i, p, marker)
    requires SlotBase(i) + SLOT_META_SIZE <= |mem| && AllAt(mem, BodyWrites(g, dir, i, p, marker))
    ensures var ptr := DecodePointer(mem, dir, i); ptr.marker == 0 ==> OwnRange(g, dir, i, ptr.offset, ptr.len)
  {
    PointerReadsBack(mem, g, dir, i, p, marker);
    if PlaceOf(g, dir, i, p).Inline? {
      BodyOffsetBounds(g, dir, i, p);
      ArenaInHeap(g, dir, i);
      SmallMod(PlaceOf(g, dir, i, p).offset);
      SmallMod(|p.body|);
    }
    hide DecodePointer, BodyWrites, AllAt, PlaceOf, ArenaBase, ArenaEnd;
  }

  /** So a payload that a finished call has stored in another slot, or in the other direction of the same
      slot, with its region in place if it has one, still reads back after the call. */
  lemma WriteKeepsOthers(was: seq<byte>, segments: map<string, Overflow.Segment>, os: Overflow.Platform,
                         segments': map<string, Overflow.Segment>,
                         config: Config, g: Geometry, dir: Dir, i: nat, id: seq<byte>, p: Payload,
                         r: Result<Option<Handle>>, now: seq<byte>,
                         dir': Dir, i': nat, id': seq<byte>, p': Payload, m': nat)
    requires Sound(g) && i < g.numSlots && i' < g.numSlots && (dir != dir' || i != i') && MappedSize(g) <= |was|
    requires Outcome(segments, os, segments', config, g, dir, i, p, r) && Made(was, Stores(g, dir, i, id, p, r), now)
    requires MetaFits(g, dir', p') && MarkerOk(g, dir', i', p', m') && Stored(was, g, dir', i', id', p', m')
    requires PlaceOf(g, dir', i', p').Spill? ==>
               && NameFor(config, dir', i')(m' - 1) in segments
               && segments[NameFor(config, dir', i')(m' - 1)].data == FilledPages(p'.body)
    ensures |now| == |was| && SlotBase(i') + SLOT_META_SIZE <= |now|
    ensures ReadSlot(now, segments', config, g, dir', i') == Ok(Received(dir', p'))
              == ReadSlot(was, segments, config, g, dir', i')
  {
    hide Stored, MetaFits, PlaceOf, MarkerOk, Outcome, Stores, Made, NameFor, OwnPointers;
    StoredReadsBack(was, segments, config, g, dir', i', id', p', m');
    StoredPointersOwn(was, g, dir', i', id', p', m');
    WriteKeepsReads(was, segments, os, segments', config, g, dir, i, id, p, r, now, dir', i');
    hide ReadSlot;
  }
}
