/** The control region as the mapped bytes it is: layout of the header, checked heap access, the raw
    writes of a request or response in program order, and the reads through the slot structure
    (`region.rs`, called here by one thread at a time). */
module ShmRegion {
  import opened Bytes
  import opened Layout
  import opened Slots
  import Names
  import Overflow

  datatype Config = Config(prefix: string, name: string, numSlots: nat, regionSize: nat)

  datatype Error = InvalidRegion | MetaTooLarge | HeapBounds | OverflowFailed(error: Overflow.Error)

  datatype Result<+T> = Ok(value: T) | Err(error: Error)

  /** What `read_request` returns. */
  datatype Message = Message(id: seq<byte>, payload: Payload)

  /** An overflow region's handle, as the caller keeps it. */
  datatype Handle = Handle(name: string, generation: nat)

  // ---- Specification -------------------------------------------------------------------------------

  /** The stores of `init_control`: five header words, then `alloc_head`. */
  function HeaderWrites(g: Geometry): seq<Write> {
    [Write(0, U32Bytes(SHM_MAGIC)), Write(4, U32Bytes(SHM_VERSION)), Write(8, U32Bytes(g.numSlots)),
     Write(12, U32Bytes(g.heapOffset)), Write(16, U32Bytes(g.heapSize)), Write(20, U32Bytes(0))]
  }

  function Word(mem: seq<byte>, off: nat): nat
    requires off + 4 <= |mem|
  {
    FromLittleEndian(mem[off..off + 4])
  }

  /** What `validate_control` makes of a mapping. */
  function ParseHeader(mem: seq<byte>): Option<Geometry>
    requires SHM_HEADER_SIZE <= |mem|
  {
    var g := Geometry(Word(mem, 8), Word(mem, 12), Word(mem, 16));
    if Word(mem, 0) == SHM_MAGIC && Word(mem, 4) == SHM_VERSION
       && g.heapOffset + g.heapSize <= |mem| then Some(g) else None
  }

  function StatusAt(mem: seq<byte>, i: nat): nat
    requires SlotBase(i) + 4 <= |mem|
  {
    Word(mem, SlotBase(i))
  }

  /** The slots whose status word reads Free. */
  function FreeSlots(mem: seq<byte>, g: Geometry): set<nat>
    requires Sound(g) && MappedSize(g) <= |mem|
  {
    set i: nat | i < g.numSlots && StatusAt(mem, i) == StatusWord(Free)
  }

  function StatusWrite(i: nat, st: Status): Write {
    Write(SlotBase(i), U32Bytes(StatusWord(st)))
  }

  function NameFor(config: Config, dir: Dir, i: nat): nat -> string {
    (gen: nat) => Names.OverflowName(config.prefix, config.name, dir, i, gen)
  }

  /** The read of a slot in one direction, bytes to payload. */
  function ReadSlot(mem: seq<byte>, segments: map<string, Overflow.Segment>, config: Config, g: Geometry, dir: Dir,
                    i: nat): Result<Payload>
    requires MappedSize(g) <= |mem| && SlotBase(i) + SLOT_META_SIZE <= |mem|
  {
    match DecodeMeta(mem, g, dir, i)
    case None => Err(HeapBounds)
    case Some(meta) =>
      match ReadBody(mem, segments, config, g, dir, i)
      case Err(e) => Err(e)
      case Ok(body) => Ok(Payload(DecodeTag(mem, dir, i), meta, body))
  }

  function ReadBody(mem: seq<byte>, segments: map<string, Overflow.Segment>, config: Config, g: Geometry, dir: Dir,
                    i: nat): Result<seq<byte>>
    requires MappedSize(g) <= |mem| && SlotBase(i) + SLOT_META_SIZE <= |mem|
  {
    match DecodeBody(mem, g, dir, i)
    case NoBody => Ok([])
    case InHeap(None) => Err(HeapBounds)
    case InHeap(Some(body)) => Ok(body)
    case InOverflow(gen, len) =>
      match Overflow.ReadSegment(segments, NameFor(config, dir, i)(gen), len)
      case Ok(body) => Ok(body)
      case Err(e) => Err(OverflowFailed(e))
  }

  /** The marker byte a finished write leaves in the slot. */
  function MarkerOf(h: Option<Handle>): nat {
    match h
    case None => 0
    case Some(handle) => handle.generation + 1
  }

  /** The outcome of creating and filling an overflow region. */
  ghost predicate Spilled(segments: map<string, Overflow.Segment>, os: Overflow.Platform,
                          segments': map<string, Overflow.Segment>,
                          nameFor: nat -> string, body: seq<byte>, r: Result<Handle>) {
    match r
    case Ok(h) =>
      && h.generation <= MAX_OVERFLOW_GENERATION
      && Overflow.FirstOpen(segments, os, nameFor, h.generation)
      && nameFor(h.generation) !in os.faulty
      && h.name == nameFor(h.generation)
      && segments' == segments[h.name := Overflow.Segment(true, FilledPages(body))]
    case Err(e) =>
      && e.OverflowFailed? && segments' == segments
      && (e.error == Overflow.Exhausted || e.error == Overflow.OsError)
      && (e.error == Overflow.Exhausted <==> Overflow.AllTaken(segments, os, nameFor, MAX_OVERFLOW_GENERATION + 1))
  }

  /** The outcome of the part that both directions share: metadata, then body. */
  ghost predicate Outcome(segments: map<string, Overflow.Segment>, os: Overflow.Platform,
                          segments': map<string, Overflow.Segment>,
                          config: Config, g: Geometry, dir: Dir, i: nat, p: Payload, r: Result<Option<Handle>>) {
    match r
    case Ok(None) => MetaFits(g, dir, p) && !PlaceOf(g, dir, i, p).Spill? && segments' == segments
    case Ok(Some(h)) =>
      && MetaFits(g, dir, p) && PlaceOf(g, dir, i, p).Spill?
      && Spilled(segments, os, segments', NameFor(config, dir, i), p.body, Ok(h))
    case Err(MetaTooLarge) => !MetaFits(g, dir, p) && segments' == segments
    case Err(OverflowFailed(e)) =>
      && MetaFits(g, dir, p) && PlaceOf(g, dir, i, p).Spill?
      && Spilled(segments, os, segments', NameFor(config, dir, i), p.body, Err(OverflowFailed(e)))
    case Err(_) => false
  }

  lemma OutcomeInline(segments: map<string, Overflow.Segment>, os: Overflow.Platform, config: Config, g: Geometry,
                      dir: Dir, i: nat, p: Payload)
    requires MetaFits(g, dir, p) && !PlaceOf(g, dir, i, p).Spill?
    ensures Outcome(segments, os, segments, config, g, dir, i, p, Ok(None))
  {
  }

  lemma OutcomeSpilled(segments: map<string, Overflow.Segment>, os: Overflow.Platform,
                       segments': map<string, Overflow.Segment>,
                       config: Config, g: Geometry, dir: Dir, i: nat, p: Payload, r: Result<Handle>)
    requires MetaFits(g, dir, p) && PlaceOf(g, dir, i, p).Spill?
    requires Spilled(segments, os, segments', NameFor(config, dir, i), p.body, r)
    ensures Outcome(segments, os, segments', config, g, dir, i, p, if r.Ok? then Ok(Some(r.value)) else Err(r.error))
  {
  }

  /** What that part copies into the mapping. */
  function PayloadCopies(g: Geometry, dir: Dir, i: nat, p: Payload, r: Result<Option<Handle>>): seq<Write> {
    match r
    case Ok(h) => MetaWrites(g, dir, i, p) + BodyWrites(g, dir, i, p, MarkerOf(h))
    case Err(MetaTooLarge) => []
    case Err(_) => MetaWrites(g, dir, i, p)
  }

  lemma CopiesAll(segments': map<string, Overflow.Segment>, os: Overflow.Platform,
                  segments: map<string, Overflow.Segment>, config: Config,
                  g: Geometry, dir: Dir, i: nat, p: Payload, r: Result<Option<Handle>>, done: seq<Write>)
    requires MetaFits(g, dir, p) && Outcome(segments, os, segments', config, g, dir, i, p, r)
    ensures done + PayloadCopies(g, dir, i, p, r)
         == if r.Ok? then done + MetaWrites(g, dir, i, p) + BodyWrites(g, dir, i, p, MarkerOf(r.value))
           else done + MetaWrites(g, dir, i, p)
  {
    hide MetaWrites, BodyWrites;
  }

  lemma CopiesNone(segments: map<string, Overflow.Segment>, os: Overflow.Platform, config: Config, g: Geometry,
                   dir: Dir, i: nat, p: Payload, done: seq<Write>)
    requires !MetaFits(g, dir, p)
    ensures Outcome(segments, os, segments, config, g, dir, i, p, Err(MetaTooLarge))
    ensures done + PayloadCopies(g, dir, i, p, Err(MetaTooLarge)) == done
  {
  }

  lemma MetaPlace(g: Geometry, dir: Dir, i: nat, p: Payload)
    requires Sound(g) && i < g.numSlots
    ensures MetaFits(g, dir, p) ==> ArenaBase(g, dir, i) + |p.meta| <= g.heapSize < USIZE
    ensures SlotBase(i) + FieldBase(dir) + 6 <= g.heapOffset
  {
    ArenaInHeap(g, dir, i);
  }

  /** Everything a write call with this outcome copies into the mapping before its last status store. */
  function Copies(g: Geometry, dir: Dir, i: nat, id: seq<byte>, p: Payload, r: Result<Option<Handle>>): seq<Write> {
    Head(dir, i, id, p) + PayloadCopies(g, dir, i, p, r)
  }

  /** The status store that closes the call: a finished one publishes, a failed request frees its slot. */
  function Closing(dir: Dir, i: nat, ok: bool): seq<Write> {
    match dir
    case Req => [StatusWrite(i, if ok then Ready else Free)]
    case Rsp => if ok then [StatusWrite(i, Done)] else []
  }

  function Stores(g: Geometry, dir: Dir, i: nat, id: seq<byte>, p: Payload, r: Result<Option<Handle>>): seq<Write> {
    Copies(g, dir, i, id, p, r) + Closing(dir, i, r.Ok?)
  }

  /** `now` is what `was` has become by the writes `done`. */
  ghost predicate Made(was: seq<byte>, done: seq<Write>, now: seq<byte>) {
    AllFit(was, done) && now == ApplyAll(was, done)
  }

  // ---- The region ------------------------------------------------------------------------------------

  class Region {
    const bytes: array<byte>
    var numSlots: nat
    var heapOffset: nat
    var heapSize: nat

    function Geom(): Geometry
      reads this
    {
      Geometry(numSlots, heapOffset, heapSize)
    }

    /** After `init_control`, or `validate_control` of what it wrote. */
    predicate Valid()
      reads this
    {
      Sound(Geom()) && MappedSize(Geom()) <= bytes.Length
    }

    constructor (bytes: array<byte>)
      ensures this.bytes == bytes && numSlots == 0 && heapOffset == 0 && heapSize == 0
    {
      this.bytes := bytes;
      numSlots, heapOffset, heapSize := 0, 0, 0;
    }

    /** One raw copy into the mapping. `done` lists the copies made since the bytes were `was`. */
    method Put(w: Write, ghost was: seq<byte>, ghost done: seq<Write>) returns (ghost done': seq<Write>)
      requires |was| == bytes.Length && Fits(was, w) && Made(was, done, bytes[..])
      modifies bytes
      ensures done' == done + [w] && Made(was, done', bytes[..])
    {
      ghost var before := bytes[..];
      forall k | 0 <= k < |w.data| {
        bytes[w.off + k] := w.data[k];
      }
      assert bytes[..] == Splice(before, w);
      ApplySnoc(was, done, w);
      done' := done + [w];
    }

    /** `init_control` */
    method InitControl(config: Config) returns (r: Result<()>)
      modifies this, bytes
      ensures r.Err? <==> config.regionSize > bytes.Length
                          || SHM_HEADER_SIZE + config.numSlots * SLOT_META_SIZE > bytes.Length
      ensures r.Err? ==> r.error == InvalidRegion
      ensures r.Ok? ==>
                && numSlots == config.numSlots && heapOffset == SHM_HEADER_SIZE + numSlots * SLOT_META_SIZE
                && (if heapOffset <= config.regionSize then heapOffset + heapSize == config.regionSize
                    else heapSize == 0)
      ensures r.Err? ==> bytes[..] == old(bytes[..]) && Geom() == old(Geom())
      ensures r.Ok? ==> Geom() == ComputeLayout(config.numSlots, config.regionSize)
      ensures r.Ok? ==> Made(Zeros(bytes.Length), HeaderWrites(Geom()), bytes[..])
    {
      var g := ComputeLayout(config.numSlots, config.regionSize);
      if MappedSize(g) > bytes.Length {
        return Err(InvalidRegion);
      }
      numSlots, heapOffset, heapSize := g.numSlots, g.heapOffset, g.heapSize;
      hide Made, HeaderWrites, Zeros;
      Clear();
      ghost var was := Zeros(bytes.Length);
      ghost var done := PutHeader(g, was, []);
      assert [] + HeaderWrites(g) == HeaderWrites(g);
      return Ok(());
    }

    method Clear()
      modifies bytes
      ensures Made(Zeros(bytes.Length), [], bytes[..])
    {
      forall a | 0 <= a < bytes.Length {
        bytes[a] := 0;
      }
      assert bytes[..] == Zeros(bytes.Length);
    }

    method PutHeader(g: Geometry, ghost was: seq<byte>, ghost done: seq<Write>) returns (ghost done': seq<Write>)
      requires SHM_HEADER_SIZE <= bytes.Length == |was| && Made(was, done, bytes[..])
      modifies bytes
      ensures Made(was, done', bytes[..]) && done' == done + HeaderWrites(g)
    {
      hide Made, U32Bytes;
      done' := Put(Write(0, U32Bytes(SHM_MAGIC)), was, done);
      done' := Put(Write(4, U32Bytes(SHM_VERSION)), was, done');
      done' := Put(Write(8, U32Bytes(g.numSlots)), was, done');
      done' := Put(Write(12, U32Bytes(g.heapOffset)), was, done');
      done' := Put(Write(16, U32Bytes(g.heapSize)), was, done');
      done' := Put(Write(20, U32Bytes(0)), was, done');
    }

    method ReadWord(off: nat) returns (w: nat)
      requires off + 4 <= bytes.Length
      ensures w == Word(bytes[..], off)
    {
      w := FromLittleEndian(bytes[off..off + 4]);
      assert bytes[..][off..off + 4] == bytes[off..off + 4];
    }

    /** `validate_control` */
    method ValidateControl() returns (r: Result<()>)
      requires SHM_HEADER_SIZE <= bytes.Length
      modifies this
      ensures r.Ok? <==> && Word(bytes[..], 0) == SHM_MAGIC && Word(bytes[..], 4) == SHM_VERSION
                         && Word(bytes[..], 12) + Word(bytes[..], 16) <= bytes.Length
      ensures r.Ok? ==> numSlots == Word(bytes[..], 8) && heapOffset == Word(bytes[..], 12)
                        && heapSize == Word(bytes[..], 16)
      ensures r.Err? ==> r.error == InvalidRegion && Geom() == old(Geom())
      ensures ParseHeader(bytes[..]) == if r.Ok? then Some(Geom()) else None
    {
      var magic := ReadWord(0);
      var version := ReadWord(4);
      var n := ReadWord(8);
      var offset := ReadWord(12);
      var size := ReadWord(16);
      if magic != SHM_MAGIC || version != SHM_VERSION || offset + size > bytes.Length {
        return Err(InvalidRegion);
      }
      numSlots, heapOffset, heapSize := n, offset, size;
      return Ok(());
    }

    /** `heap_read_checked` */
    method HeapReadChecked(offset: nat, len: nat) returns (r: Option<seq<byte>>)
      requires MappedSize(Geom()) <= bytes.Length
      ensures r == HeapRead(bytes[..], Geom(), offset, len)
      ensures r.Some? <==> offset + len < USIZE && offset + len <= heapSize
      ensures r.Some? ==> |r.value| == len && forall k :: 0 <= k < len ==> r.value[k] == bytes[heapOffset + offset + k]
    {
      if offset + len < USIZE && offset + len <= heapSize {
        assert bytes[..][heapOffset + offset..heapOffset + offset + len]
                 == bytes[heapOffset + offset..heapOffset + offset + len];
        return Some(bytes[heapOffset + offset..heapOffset + offset + len]);
      }
      return None;
    }

    /** `heap_write_checked` */
    method HeapWriteChecked(offset: nat, data: seq<byte>, ghost was: seq<byte>, ghost done: seq<Write>)
      returns (ok: bool, ghost done': seq<Write>)
      requires MappedSize(Geom()) <= bytes.Length
      requires |was| == bytes.Length && Made(was, done, bytes[..])
      modifies bytes
      ensures ok <==> offset + |data| < USIZE && offset + |data| <= heapSize
      ensures done' == if ok then done + [Write(heapOffset + offset, data)] else done
      ensures Made(was, done', bytes[..])
    {
      done' := done;
      ok := offset + |data| < USIZE && offset + |data| <= heapSize;
      if ok {
        done' := Put(Write(heapOffset + offset, data), was, done);
      }
    }

    /** The three body fields of one direction. */
    method PutBodyFields(dir: Dir, i: nat, offset: nat, len: nat, marker: nat, ghost was: seq<byte>,
                         ghost done: seq<Write>) returns (ghost done': seq<Write>)
      requires |was| == bytes.Length && SlotBase(i) + SLOT_META_SIZE <= |was| && Made(was, done, bytes[..])
      modifies bytes
      ensures done' == done + BodyFields(dir, i, offset, len, marker)
      ensures Made(was, done', bytes[..])
    {
      hide Made, U32Bytes;
      var f := SlotBase(i) + FieldBase(dir);
      done' := Put(Write(f + 8, U32Bytes(offset)), was, done);
      done' := Put(Write(f + 12, U32Bytes(len)), was, done');
      done' := Put(Write(f + 16, [marker % 256]), was, done');
    }

    /** `create_overflow_fresh` under the names of this slot and direction. */
    method Spill(dir: Dir, i: nat, body: seq<byte>, config: Config, ns: Overflow.Namespace) returns (r: Result<Handle>)
      modifies ns
      ensures Spilled(old(ns.segments), ns.os, ns.segments, NameFor(config, dir, i), body, r)
    {
      var nameFor := NameFor(config, dir, i);
      hide NameFor;
      var created := ns.CreateOverflowFresh(nameFor, body);
      match created {
        case Ok(marker) => return Ok(Handle(nameFor(marker - 1), marker - 1));
        case Err(e) => return Err(OverflowFailed(e));
      }
    }

    /** The metadata's bytes, offset and length. */
    method PutMeta(base: nat, f: nat, meta: seq<byte>, ghost was: seq<byte>, ghost done: seq<Write>)
      returns (ghost done': seq<Write>)
      requires MappedSize(Geom()) <= bytes.Length && |was| == bytes.Length && Made(was, done, bytes[..])
      requires base + |meta| < USIZE && base + |meta| <= heapSize && f + 6 <= bytes.Length
      modifies bytes
      ensures Made(was, done', bytes[..])
      ensures done' == done + [Write(heapOffset + base, meta), Write(f, U32Bytes(base)), Write(f + 4, U16Bytes(|meta|))]
    {
      hide Made, U32Bytes, U16Bytes;
      var ok;
      ok, done' := HeapWriteChecked(base, meta, was, done);
      assert ok;   // the bounds check cannot fail
      done' := Put(Write(f, U32Bytes(base)), was, done');
      done' := Put(Write(f + 4, U16Bytes(|meta|)), was, done');
    }

    /** Metadata at the start of the slot's arena half, and its pointer fields. */
    method WriteMeta(dir: Dir, i: nat, p: Payload, ghost was: seq<byte>, ghost done: seq<Write>)
      returns (fits: bool, ghost done': seq<Write>)
      requires Valid() && i < numSlots && |was| == bytes.Length && Made(was, done, bytes[..])
      modifies bytes
      ensures fits <==> MetaFits(Geom(), dir, p)
      ensures Made(was, done', bytes[..])
      ensures done' == if fits then done + MetaWrites(Geom(), dir, i, p) else done
    {
      var g := Geometry(numSlots, heapOffset, heapSize);
      MetaPlace(g, dir, i, p);
      hide Made, U32Bytes, U16Bytes, ArenaBase, ArenaLen;
      done' := done;
      fits := |p.meta| <= ArenaLen(g, dir);
      if fits {
        done' := PutMeta(ArenaBase(g, dir, i), SlotBase(i) + FieldBase(dir), p.meta, was, done');
      }
    }

    /** A body that fits behind the metadata. */
    method WriteInline(dir: Dir, i: nat, offset: nat, body: seq<byte>, ghost was: seq<byte>, ghost done: seq<Write>)
      returns (ghost done': seq<Write>)
      requires Valid() && i < numSlots && |was| == bytes.Length && Made(was, done, bytes[..])
      requires offset + |body| < USIZE && offset + |body| <= heapSize
      modifies bytes
      ensures Made(was, done', bytes[..])
      ensures done' == done + ([Write(heapOffset + offset, body)] + BodyFields(dir, i, offset, |body|, 0))
    {
      hide Made, BodyFields;
      var ok;
      ok, done' := HeapWriteChecked(offset, body, was, done);
      assert ok;   // the bounds check cannot fail here either
      done' := PutBodyFields(dir, i, offset, |body|, 0, was, done');
    }

    /** A body that does not fit: its fields name the region that was created for it. */
    method WriteSpilled(dir: Dir, i: nat, p: Payload, config: Config, ns: Overflow.Namespace, ghost was: seq<byte>,
                        ghost done: seq<Write>)
      returns (r: Result<Option<Handle>>, ghost done': seq<Write>)
      requires Valid() && i < numSlots && |was| == bytes.Length && Made(was, done, bytes[..])
      requires MetaFits(Geom(), dir, p) && PlaceOf(Geom(), dir, i, p).Spill?
      modifies bytes, ns
      ensures Outcome(old(ns.segments), ns.os, ns.segments, config, Geom(), dir, i, p, r)
      ensures Made(was, done', bytes[..])
      ensures done' == if r.Ok? then done + BodyFields(dir, i, 0, |p.body|, MarkerOf(r.value)) else done
    {
      hide Made, MetaFits, BodyFields, NameFor, PlaceOf, Outcome, Spilled;
      done' := done;
      var region := Spill(dir, i, p.body, config, ns);
      OutcomeSpilled(old(ns.segments), ns.os, ns.segments, config, Geom(), dir, i, p, region);
      if region.Ok? {
        done' := PutBodyFields(dir, i, 0, |p.body|, region.value.generation + 1, was, done);
      }
      r := if region.Ok? then Ok(Some(region.value)) else Err(region.error);
    }

    /** The body: nothing, inline behind the metadata, or in an overflow region. */
    method WriteBody(dir: Dir, i: nat, p: Payload, config: Config, ns: Overflow.Namespace, ghost was: seq<byte>,
                     ghost done: seq<Write>)
      returns (r: Result<Option<Handle>>, ghost done': seq<Write>)
      requires Valid() && i < numSlots && |was| == bytes.Length && Made(was, done, bytes[..])
      requires MetaFits(Geom(), dir, p)
      modifies bytes, ns
      ensures Outcome(old(ns.segments), ns.os, ns.segments, config, Geom(), dir, i, p, r)
      ensures Made(was, done', bytes[..])
      ensures done' == if r.Ok? then done + BodyWrites(Geom(), dir, i, p, MarkerOf(r.value)) else done
    {
      var g := Geometry(numSlots, heapOffset, heapSize);
      BodyCases(g, dir, i, p);
      hide Made, MetaFits, BodyFields, NameFor, BodyWrites, PlaceOf, ArenaBodyOffset, ArenaBase, ArenaLen, Outcome,
        Spilled;
      var place := ArenaBodyOffset(ArenaBase(g, dir, i), ArenaLen(g, dir), |p.meta|, |p.body|);
      if |p.body| == 0 {
        done' := PutBodyFields(dir, i, 0, 0, 0, was, done);
        r := Ok(None);
        OutcomeInline(ns.segments, ns.os, config, g, dir, i, p);
      } else if place.Some? {
        done' := WriteInline(dir, i, place.value, p.body, was, done);
        r := Ok(None);
        OutcomeInline(ns.segments, ns.os, config, g, dir, i, p);
      } else {
        r, done' := WriteSpilled(dir, i, p, config, ns, was, done);
      }
    }

    /** The part that `write_request` and `write_response` have in common. */
    method WritePayload(dir: Dir, i: nat, p: Payload, config: Config, ns: Overflow.Namespace, ghost was: seq<byte>,
                        ghost done: seq<Write>)
      returns (r: Result<Option<Handle>>, ghost done': seq<Write>)
      requires Valid() && i < numSlots && |was| == bytes.Length && Made(was, done, bytes[..])
      modifies bytes, ns
      ensures Outcome(old(ns.segments), ns.os, ns.segments, config, Geom(), dir, i, p, r)
      ensures Made(was, done', bytes[..]) && done' == done + PayloadCopies(Geom(), dir, i, p, r)
    {
      hide Made, Outcome, MetaWrites, BodyWrites, PayloadCopies;
      var fits;
      fits, done' := WriteMeta(dir, i, p, was, done);
      if fits {
        r, done' := WriteBody(dir, i, p, config, ns, was, done');
        CopiesAll(ns.segments, ns.os, old(ns.segments), config, Geom(), dir, i, p, r, done);
      } else {
        r := Err(MetaTooLarge);
        CopiesNone(ns.segments, ns.os, config, Geom(), dir, i, p, done);
      }
    }

    /** An unconditional store of a status word. */
    method StoreStatus(i: nat, st: Status, ghost was: seq<byte>, ghost done: seq<Write>)
      requires |was| == bytes.Length && SlotBase(i) + 4 <= |was| && Made(was, done, bytes[..])
      modifies bytes
      ensures Made(was, done + [StatusWrite(i, st)], bytes[..])
      ensures StatusAt(bytes[..], i) == StatusWord(st)
    {
      ghost var done' := Put(StatusWrite(i, st), was, done);
      StoredWord(ApplyAll(was, done), i, st);
      ApplySnoc(was, done, StatusWrite(i, st));
    }

    /** The id, cleared first, and the method. */
    method PutRequestHead(i: nat, id: seq<byte>, p: Payload) returns (ghost done: seq<Write>)
      requires Valid() && i < numSlots
      modifies bytes
      ensures done == Head(Req, i, id, p) && Made(old(bytes[..]), done, bytes[..])
    {
      ghost var was := bytes[..];
      var cleared, named := Write(SlotBase(i) + 4, Zeros(ID_LEN)), Write(SlotBase(i) + 4, ShortId(id));
      var tagged := Write(SlotBase(i) + 40, [p.tag % 256]);
      HeadFits(was, Geom(), i, id, p);
      hide Made, Zeros, ShortId, Head, Fits, SlotBase, Sound, MappedSize;
      done := Put(cleared, was, []);
      done := Put(named, was, done);
      done := Put(tagged, was, done);
    }

    /** `write_request_inner` from the first copy on, without the status store */
    method FillRequest(i: nat, id: seq<byte>, p: Payload, config: Config, ns: Overflow.Namespace)
      returns (r: Result<Option<Handle>>, ghost done: seq<Write>)
      requires Valid() && i < numSlots
      modifies bytes, ns
      ensures Outcome(old(ns.segments), ns.os, ns.segments, config, Geom(), Req, i, p, r)
      ensures done == Copies(Geom(), Req, i, id, p, r) && Made(old(bytes[..]), done, bytes[..])
    {
      ghost var was := bytes[..];
      hide Made, Outcome, PayloadCopies, Head;
      done := PutRequestHead(i, id, p);
      r, done := WritePayload(Req, i, p, config, ns, was, done);
    }

    /** `write_request`: on failure the claimed slot is set back to Free. */
    method WriteRequest(i: nat, id: seq<byte>, p: Payload, config: Config, ns: Overflow.Namespace)
      returns (r: Result<Option<Handle>>)
      requires Valid() && SlotBase(i) + SLOT_META_SIZE <= bytes.Length
      modifies bytes, ns
      ensures StatusAt(bytes[..], i) == if r.Ok? then StatusWord(Ready) else StatusWord(Free)
      ensures i >= numSlots ==>
                r == Err(InvalidRegion) && ns.segments == old(ns.segments)
                && Made(old(bytes[..]), [StatusWrite(i, Free)], bytes[..])
      ensures i < numSlots ==>
                && Outcome(old(ns.segments), ns.os, ns.segments, config, Geom(), Req, i, p, r)
                && Made(old(bytes[..]), Stores(Geom(), Req, i, id, p, r), bytes[..])
    {
      ghost var was, done: seq<Write> := bytes[..], [];
      assert Made(was, done, bytes[..]);
      hide Made, Outcome, Copies, StatusWrite;
      if i >= numSlots {
        r := Err(InvalidRegion);
      } else {
        r, done := FillRequest(i, id, p, config, ns);
      }
      StoreStatus(i, if r.Ok? then Ready else Free, was, done);
    }

    /** `write_response` from the first copy on, without the status store */
    method FillResponse(i: nat, p: Payload, config: Config, ns: Overflow.Namespace)
      returns (r: Result<Option<Handle>>, ghost done: seq<Write>)
      requires Valid() && i < numSlots
      modifies bytes, ns
      ensures Outcome(old(ns.segments), ns.os, ns.segments, config, Geom(), Rsp, i, p, r)
      ensures done == Copies(Geom(), Rsp, i, [], p, r) && Made(old(bytes[..]), done, bytes[..])
    {
      ghost var was := bytes[..];
      assert Made(was, [], bytes[..]);
      hide Made, U16Bytes, Outcome, PayloadCopies;
      done := Put(Write(SlotBase(i) + 64, U16Bytes(p.tag)), was, []);
      assert done == Head(Rsp, i, [], p);
      hide Head;
      r, done := WritePayload(Rsp, i, p, config, ns, was, done);
    }

    /** `write_response`; it does not look at the slot's status, and a failure is left to the caller. */
    method WriteResponse(i: nat, p: Payload, config: Config, ns: Overflow.Namespace) returns (r: Result<Option<Handle>>)
      requires Valid()
      modifies bytes, ns
      ensures i >= numSlots ==>
                r == Err(InvalidRegion) && ns.segments == old(ns.segments) && bytes[..] == old(bytes[..])
      ensures r.Ok? ==> StatusAt(bytes[..], i) == StatusWord(Done)
      ensures i < numSlots ==>
                && Outcome(old(ns.segments), ns.os, ns.segments, config, Geom(), Rsp, i, p, r)
                && Made(old(bytes[..]), Stores(Geom(), Rsp, i, [], p, r), bytes[..])
    {
      if i >= numSlots {
        return Err(InvalidRegion);
      }
      hide Made, Outcome, Copies, StatusWrite;
      ghost var was := bytes[..];
      ghost var done;
      r, done := FillResponse(i, p, config, ns);
      if r.Ok? {
        StoreStatus(i, Done, was, done);
      } else {
        assert done + Closing(Rsp, i, false) == done;
      }
    }

    method ReadPointer(dir: Dir, i: nat) returns (ptr: BodyPointer)
      requires SlotBase(i) + SLOT_META_SIZE <= bytes.Length
      ensures ptr == DecodePointer(bytes[..], dir, i)
    {
      var f := SlotBase(i) + FieldBase(dir);
      var offset := ReadWord(f + 8);
      var len := ReadWord(f + 12);
      return BodyPointer(offset, len, bytes[f + 16]);
    }

    /** The body of a slot, from wherever its fields say it is. */
    method ReadBodyOf(dir: Dir, i: nat, config: Config, ns: Overflow.Namespace) returns (r: Result<seq<byte>>)
      requires MappedSize(Geom()) <= bytes.Length && SlotBase(i) + SLOT_META_SIZE <= bytes.Length
      ensures r == ReadBody(bytes[..], ns.segments, config, Geom(), dir, i)
    {
      var ptr := ReadPointer(dir, i);
      hide DecodePointer;
      var generation := OverflowGeneration(ptr.marker);
      if ptr.len == 0 {
        r := Ok([]);
      } else if generation.None? {
        var stored := HeapReadChecked(ptr.offset, ptr.len);
        r := if stored.None? then Err(HeapBounds) else Ok(stored.value);
      } else {
        var region := ns.ReadOverflow(NameFor(config, dir, i)(generation.value), ptr.len);
        r := if region.Err? then Err(OverflowFailed(region.error)) else Ok(region.value);
      }
    }

    /** The metadata of a slot, from where its fields say it is. */
    method ReadMetaOf(dir: Dir, i: nat) returns (r: Option<seq<byte>>)
      requires MappedSize(Geom()) <= bytes.Length && SlotBase(i) + SLOT_META_SIZE <= bytes.Length
      ensures r == DecodeMeta(bytes[..], Geom(), dir, i)
    {
      var mem := bytes[..];
      var f := SlotBase(i) + FieldBase(dir);
      hide HeapRead, FromLittleEndian, MappedSize;
      r := HeapReadChecked(FromLittleEndian(mem[f..f + 4]), FromLittleEndian(mem[f + 4..f + 6]));
    }

    /** The part that `read_request` and `read_response` have in common. */
    method ReadPayload(dir: Dir, i: nat, config: Config, ns: Overflow.Namespace) returns (r: Result<Payload>)
      requires MappedSize(Geom()) <= bytes.Length && SlotBase(i) + SLOT_META_SIZE <= bytes.Length
      ensures r == ReadSlot(bytes[..], ns.segments, config, Geom(), dir, i)
    {
      hide DecodeTag, DecodeMeta, ReadBody, MappedSize, SlotBase;
      var meta := ReadMetaOf(dir, i);
      if meta.None? {
        return Err(HeapBounds);
      }
      var body := ReadBodyOf(dir, i, config, ns);
      return if body.Err? then Err(body.error) else Ok(Payload(DecodeTag(bytes[..], dir, i), meta.value, body.value));
    }

    /** `read_request` */
    method ReadRequest(i: nat, config: Config, ns: Overflow.Namespace) returns (r: Result<Message>)
      requires MappedSize(Geom()) <= bytes.Length && SlotBase(i) + SLOT_META_SIZE <= bytes.Length
      ensures match ReadSlot(bytes[..], ns.segments, config, Geom(), Req, i)
              case Ok(p) => r == Ok(Message(DecodeId(bytes[..], i), p))
              case Err(e) => r == Err(e)
    {
      hide ReadSlot, DecodeId;
      var p := ReadPayload(Req, i, config, ns);
      match p {
        case Ok(payload) => return Ok(Message(DecodeId(bytes[..], i), payload));
        case Err(e) => return Err(e);
      }
    }

    /** `read_response` */
    method ReadResponse(i: nat, config: Config, ns: Overflow.Namespace) returns (r: Result<Payload>)
      requires MappedSize(Geom()) <= bytes.Length && SlotBase(i) + SLOT_META_SIZE <= bytes.Length
      ensures r == ReadSlot(bytes[..], ns.segments, config, Geom(), Rsp, i)
    {
      r := ReadPayload(Rsp, i, config, ns);
    }

    /** `claim_free_slot` with nobody else about: the least Free slot becomes Writing. */
    method ClaimFreeSlot() returns (r: Option<nat>)
      requires Valid()
      modifies bytes
      ensures r.None? <==> FreeSlots(old(bytes[..]), Geom()) == {}
      ensures match r
              case None => bytes[..] == old(bytes[..])
              case Some(i) =>
                && i in FreeSlots(old(bytes[..]), Geom())
                && (forall j :: j in FreeSlots(old(bytes[..]), Geom()) ==> i <= j)
                && FreeSlots(bytes[..], Geom()) == FreeSlots(old(bytes[..]), Geom()) - {i}
                && StatusAt(bytes[..], i) == StatusWord(Writing)
                && Made(old(bytes[..]), [StatusWrite(i, Writing)], bytes[..])
    {
      ghost var was := bytes[..];
      for i := 0 to numSlots
        invariant bytes[..] == was
        invariant forall j: nat :: j < i ==> StatusAt(was, j) != StatusWord(Free)
      {
        var status := ReadWord(SlotBase(i));
        if status == StatusWord(Free) {
          assert Made(was, [], bytes[..]);
          StoreStatus(i, Writing, was, []);
          hide Made;
          ClaimTakesOne(was, bytes[..], Geom(), i);
          assert i in FreeSlots(was, Geom());
          return Some(i);
        }
      }
      return None;
    }

    /** `has_inflight_slots` */
    method HasInflight() returns (r: bool)
      requires Valid()
      ensures r <==> exists j: nat :: j < numSlots && StatusAt(bytes[..], j) != StatusWord(Free)
    {
      for i := 0 to numSlots
        invariant forall j: nat :: j < i ==> StatusAt(bytes[..], j) == StatusWord(Free)
      {
        var status := ReadWord(SlotBase(i));
        if status != StatusWord(Free) {
          assert StatusAt(bytes[..], i) != StatusWord(Free);
          return true;
        }
      }
      return false;
    }
  }

  lemma HeadFits(mem: seq<byte>, g: Geometry, i: nat, id: seq<byte>, p: Payload)
    requires Sound(g) && i < g.numSlots && MappedSize(g) <= |mem|
    ensures var cleared, named := Write(SlotBase(i) + 4, Zeros(ID_LEN)), Write(SlotBase(i) + 4, ShortId(id));
            var tagged := Write(SlotBase(i) + 40, [p.tag % 256]);
            && Head(Req, i, id, p) == [cleared, named, tagged]
            && Fits(mem, cleared) && Fits(mem, named) && Fits(mem, tagged)
    ensures Made(mem, [], mem)
  {
  }

  lemma StoredWord(mem: seq<byte>, i: nat, st: Status)
    requires SlotBase(i) + 4 <= |mem|
    ensures StatusAt(Splice(mem, StatusWrite(i, st)), i) == StatusWord(st)
  {
    hide U32Bytes, FromLittleEndian;
    U32At(Splice(mem, StatusWrite(i, st)), SlotBase(i), StatusWord(st));
  }

  /** Storing Writing takes that one slot from the Free ones. */
  lemma ClaimTakesOne(was: seq<byte>, now: seq<byte>, g: Geometry, i: nat)
    requires Sound(g) && i < g.numSlots && MappedSize(g) <= |was| && Made(was, [StatusWrite(i, Writing)], now)
    ensures |now| == |was| && StatusAt(now, i) == StatusWord(Writing)
    ensures FreeSlots(now, g) == FreeSlots(was, g) - {i}
    ensures forall j: nat :: j < g.numSlots && j != i ==> StatusAt(now, j) == StatusAt(was, j)
  {
    var w := StatusWrite(i, Writing);
    ApplySnoc(was, [], w);
    assert [] + [w] == [w];
    StoredWord(was, i, Writing);
    forall j: nat | j < g.numSlots && j != i ensures StatusAt(now, j) == StatusAt(was, j) {
      var b := SlotBase(j);
      assert now[b..b + 4] == was[b..b + 4];
    }
  }

  /** The three cases of a body, as the code tells them apart. */
  lemma BodyCases(g: Geometry, dir: Dir, i: nat, p: Payload)
    requires Sound(g) && i < g.numSlots
    ensures |p.body| == 0 ==>
              PlaceOf(g, dir, i, p).Empty?
              && forall m: nat :: BodyWrites(g, dir, i, p, m) == BodyFields(dir, i, 0, 0, 0)
    ensures |p.body| > 0 ==>
              match ArenaBodyOffset(ArenaBase(g, dir, i), ArenaLen(g, dir), |p.meta|, |p.body|)
              case Some(off) =>
                && PlaceOf(g, dir, i, p) == Inline(off) && off + |p.body| < USIZE && off + |p.body| <= g.heapSize
                && forall m: nat ::
                     BodyWrites(g, dir, i, p, m)
                     == [Write(g.heapOffset + off, p.body)] + BodyFields(dir, i, off, |p.body|, 0)
              case None =>
                && PlaceOf(g, dir, i, p) == Spill
                && forall m: nat :: BodyWrites(g, dir, i, p, m) == BodyFields(dir, i, 0, |p.body|, m)
  {
    ArenaInHeap(g, dir, i);
    hide BodyFields;
  }
}
