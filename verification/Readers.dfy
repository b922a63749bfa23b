/** What a reader has read so far is exactly what the slot's current request wrote, and what it
    ends up with is the whole payload, or an error that only a spilled body can cause. */
module Readers {
  import opened Bytes
  import opened Layout
  import opened Slots
  import opened Protocol
  import opened Stages
  import opened Memory
  import opened Regions

  /** The finished read: the payload as written, up to the field-width casts. */
  predicate ResultOk(dir: Dir, p: Payload, region: Option<nat>, result: Option<Payload>) {
    match result
    case Some(q) => q == Received(dir, p)
    case None => region.Some?
  }

  predicate ReadOk(dir: Dir, id: seq<byte>, p: Payload, region: Option<nat>, r: Reader) {
    match r
    case AtMeta(_, rid, tag) => rid == ReceivedId(id) && tag == Received(dir, p).tag
    case AtBody(_, rid, tag, meta) => rid == ReceivedId(id) && tag == Received(dir, p).tag
         && meta == Received(dir, p).meta
    case Copying(_, rid, tag, meta, len, reg) =>
      rid == ReceivedId(id) && tag == Received(dir, p).tag && meta == Received(dir, p).meta
      && region == Some(reg) && len == |p.body| % U32
    case Got(_, rid, result) => rid == ReceivedId(id) && ResultOk(dir, p, region, result)
    case Freed(_, rid, result, _) => rid == ReceivedId(id) && ResultOk(dir, p, region, result)
    case Resolving(_, rid, result, _) => rid == ReceivedId(id) && ResultOk(dir, p, region, result)
    case _ => true
  }

  predicate ReadsCall(call: Call, dir: Dir, r: Reader) {
    var w := WriterOf(call, dir);
    ReadOk(dir, call.id, w.payload, w.region, r)
  }

  predicate WorkerReads(s: State)
    requires Shape(s)
  {
    Reading(s.worker) && s.worker.i < s.g.numSlots && s.occ[s.worker.i] < |s.calls| ==>
      ReadsCall(s.calls[s.occ[s.worker.i]], Req, s.worker)
  }

  predicate WatcherReads(s: State)
    requires Shape(s)
  {
    && (Reading(s.watcher) && s.watcher.i < s.g.numSlots && s.occ[s.watcher.i] < |s.calls| ==>
        ReadsCall(s.calls[s.occ[s.watcher.i]], Rsp, s.watcher))
    && ((s.watcher.Freed? || s.watcher.Resolving?) && s.watcher.c < |s.calls| ==>
        ReadsCall(s.calls[s.watcher.c], Rsp, s.watcher))
  }

  /** A handler saw the request exactly; a request dropped unread had spilled. */
  predicate SeenOk(call: Call) {
    && (call.rsp.phase != Idle ==> call.seen == Some((ReceivedId(call.id), Received(Req, call.req.payload))))
    && (call.stage == After(RequestUnread) ==> call.req.region.Some?)
  }

  ghost predicate AllSeen(s: State) {
    forall c {:trigger s.calls[c]} {:trigger SeenOk(s.calls[c])} :: 0 <= c < |s.calls| ==> SeenOk(s.calls[c])
  }

  ghost predicate ReaderInv(s: State) {
    Shape(s) && WorkerReads(s) && WatcherReads(s) && AllSeen(s)
  }

  // ---- Reading ------------------------------------------------------------------------------------

  /** At that moment everything the reader may look at is in place. */
  lemma DataInPlace(s: State, dir: Dir)
    requires StageInv(s) && MemInv(s) && RegionInv(s) && Reading(ReaderOf(s, dir))
    ensures var i := ReaderOf(s, dir).i;
            && i < s.g.numSlots && s.occ[i] < |s.calls|
            && var call := s.calls[s.occ[i]];
               var w := WriterOf(call, dir);
               && call.slot == i && StoredBy(s.mem, s.g, Req, i, call.id, call.req)
               && StoredBy(s.mem, s.g, dir, i, call.id, w)
               && Complete(s.g, dir, i, w) && RegionOk(s.regions, dir, s.occ[i], i, w) && w.phase != Filling
               && LeadsTo(s.names, dir, i, w)
  {
    hide Program, StoredBy, Underway, Complete;
    OccupantReading(s);
    var c := s.occ[ReaderOf(s, dir).i];
    assert CallFits(s, c) && CallMem(s, c) && CallRegions(s, c);
  }

  lemma BodyOpens(g: Geometry, s: State, dir: Dir, c: nat, i: nat, w: Writer, ref: BodyRef, id: seq<byte>, tag: nat,
                  meta: seq<byte>)
    requires Complete(g, dir, i, w) && RegionOk(s.regions, dir, c, i, w) && w.phase != Filling
    requires LeadsTo(s.names, dir, i, w)
    requires ref.InOverflow? && MarkerOk(g, dir, i, w.payload, w.marker)
    requires ref == ExpectedBody(g, dir, i, w.payload, w.marker)
    ensures w.region.Some? && ref.len == |w.payload.body| % U32
    ensures var r := OpenOverflow(s, Name(dir, i, ref.generation), i, id, tag, meta, ref.len);
            r == Got(i, id, None) || r == Copying(i, id, tag, meta, ref.len, w.region.value)
  {
  }

  lemma ReadHeadOk(s: State, dir: Dir)
    requires StageInv(s) && MemInv(s) && RegionInv(s) && ReaderInv(s) && CanRead(s, dir) && ReaderOf(s, dir).AtHead?
    ensures s.occ[ReaderOf(s, dir).i] < |s.calls|
    ensures ReadsCall(s.calls[s.occ[ReaderOf(s, dir).i]], dir, ReaderOf(Read(s, dir), dir))
  {
    hide Program, Complete, RegionOk, LeadsTo, DecodeMeta, DecodeBody, DecodeId, DecodeTag, Stored, ReceivedId,
      Received;
    DataInPlace(s, dir);
    var i := ReaderOf(s, dir).i;
    var call := s.calls[s.occ[i]];
    var w := WriterOf(call, dir);
    SlotInMapping(s.g, i);
    StoredHead(s.mem, s.g, Req, i, call.id, call.req.payload, call.req.marker);
    StoredHead(s.mem, s.g, dir, i, call.id, w.payload, w.marker);
  }

  lemma ReadMetaOk(s: State, dir: Dir)
    requires StageInv(s) && MemInv(s) && RegionInv(s) && ReaderInv(s) && CanRead(s, dir) && ReaderOf(s, dir).AtMeta?
    ensures s.occ[ReaderOf(s, dir).i] < |s.calls|
    ensures ReadsCall(s.calls[s.occ[ReaderOf(s, dir).i]], dir, ReaderOf(Read(s, dir), dir))
  {
    hide Program, RegionOk, LeadsTo, DecodeMeta, DecodeBody, DecodeId, DecodeTag, Stored, ReceivedId, Received;
    DataInPlace(s, dir);
    var i := ReaderOf(s, dir).i;
    var call := s.calls[s.occ[i]];
    var w := WriterOf(call, dir);
    SlotInMapping(s.g, i);
    assert ReadsCall(call, dir, ReaderOf(s, dir));
    StoredMeta(s.mem, s.g, dir, i, call.id, w.payload, w.marker);
  }

  lemma ReadBodyOk(s: State, dir: Dir)
    requires StageInv(s) && MemInv(s) && RegionInv(s) && ReaderInv(s) && CanRead(s, dir) && ReaderOf(s, dir).AtBody?
    ensures s.occ[ReaderOf(s, dir).i] < |s.calls|
    ensures ReadsCall(s.calls[s.occ[ReaderOf(s, dir).i]], dir, ReaderOf(Read(s, dir), dir))
  {
    hide Program, DecodeMeta, DecodeBody, DecodeId, DecodeTag, Stored, ReceivedId, OpenOverflow;
    DataInPlace(s, dir);
    var i := ReaderOf(s, dir).i;
    var call := s.calls[s.occ[i]];
    var w := WriterOf(call, dir);
    SlotInMapping(s.g, i);
    assert ReadsCall(call, dir, ReaderOf(s, dir));
    hide StageInv, MemInv, RegionInv, ReaderInv;
    assert MarkerOk(s.g, dir, i, w.payload, w.marker);
    StoredBody(s.mem, s.g, dir, i, call.id, w.payload, w.marker);
    BodyReadOk(s, dir, s.occ[i], call);
    hide ReadOk;
    assert ReadsCall(call, dir, ReaderOf(Read(s, dir), dir));
  }

  /** What comes of looking at the body fields. */
  lemma BodyReadOk(s: State, dir: Dir, c: nat, call: Call)
    requires Shape(s) && CanRead(s, dir) && ReaderOf(s, dir).AtBody?
    requires SlotBase(ReaderOf(s, dir).i) + SLOT_META_SIZE <= |s.mem|
    requires var i, w := ReaderOf(s, dir).i, WriterOf(call, dir);
             && Complete(s.g, dir, i, w) && RegionOk(s.regions, dir, c, i, w) && w.phase != Filling
             && LeadsTo(s.names, dir, i, w)
             && MarkerOk(s.g, dir, i, w.payload, w.marker)
             && DecodeBody(s.mem, s.g, dir, i) == ExpectedBody(s.g, dir, i, w.payload, w.marker)
             && (PlaceOf(s.g, dir, i, w.payload).Inline? ==> |w.payload.body| < U32)
    requires ReadsCall(call, dir, ReaderOf(s, dir))
    ensures ReadsCall(call, dir, ReaderOf(Read(s, dir), dir))
  {
    hide DecodeMeta, DecodeBody, DecodeId, DecodeTag, ReceivedId, OpenOverflow, PlaceOf;
    var i, w := ReaderOf(s, dir).i, WriterOf(call, dir);
    var AtBody(_, id, tag, meta) := ReaderOf(s, dir);
    WholeBody(w.payload.body);
    EmptyPlace(s.g, dir, i, w.payload);
    var r := ReaderOf(Read(s, dir), dir);
    match DecodeBody(s.mem, s.g, dir, i)
    case NoBody =>
      assert r == Got(i, id, Some(Payload(tag, meta, [])));
    case InHeap(stored) =>
      assert stored == Some(w.payload.body);
      assert r == Got(i, id, Some(Payload(tag, meta, w.payload.body)));
    case InOverflow(gen, len) =>
      assert r == OpenOverflow(s, Name(dir, i, gen), i, id, tag, meta, len);
      BodyOpens(s.g, s, dir, c, i, w, InOverflow(gen, len), id, tag, meta);
  }

  lemma EmptyPlace(g: Geometry, dir: Dir, i: nat, p: Payload)
    ensures PlaceOf(g, dir, i, p).Empty? <==> p.body == []
  {
  }

  lemma WholeBody(body: seq<byte>)
    ensures |body| % U32 == 0 ==> body[..|body| % U32] == []
    ensures |body| < U32 ==> body[..|body| % U32] == body
    ensures |body| % U32 <= |body|
  {
  }

  lemma ReadCopyOk(s: State, dir: Dir)
    requires StageInv(s) && MemInv(s) && RegionInv(s) && ReaderInv(s) && CanRead(s, dir) && ReaderOf(s, dir).Copying?
    ensures s.occ[ReaderOf(s, dir).i] < |s.calls|
    ensures ReadsCall(s.calls[s.occ[ReaderOf(s, dir).i]], dir, ReaderOf(Read(s, dir), dir))
  {
    hide Program, DecodeMeta, DecodeBody, DecodeId, DecodeTag, Stored, ReceivedId;
    DataInPlace(s, dir);
    var i := ReaderOf(s, dir).i;
    var call := s.calls[s.occ[i]];
    var w := WriterOf(call, dir);
    SlotInMapping(s.g, i);
    assert ReadsCall(call, dir, ReaderOf(s, dir));
    var n := |w.payload.body| % U32;
    WholeBody(w.payload.body);
    PagesPrefix(w.payload.body, n);
  }

  lemma PagesPrefix(body: seq<byte>, n: nat)
    requires n <= |body|
    ensures n <= |FilledPages(body)| && FilledPages(body)[..n] == body[..n]
  {
    hide OverflowSize;
    var pages := FilledPages(body);
    assert forall k :: 0 <= k < n ==> pages[k] == body[k];
  }

  lemma ReadMoves(s: State, dir: Dir)
    requires StageInv(s) && MemInv(s) && RegionInv(s) && ReaderInv(s) && CanRead(s, dir)
    ensures s.occ[ReaderOf(s, dir).i] < |s.calls|
    ensures ReadsCall(s.calls[s.occ[ReaderOf(s, dir).i]], dir, ReaderOf(Read(s, dir), dir))
  {
    hide MemInv, RegionInv, Read, ReadsCall;
    OccupantReading(s);
    match ReaderOf(s, dir)
    case AtHead(_) => ReadHeadOk(s, dir);
    case AtMeta(_, _, _) => ReadMetaOk(s, dir);
    case AtBody(_, _, _, _) => ReadBodyOk(s, dir);
    case Copying(_, _, _, _, _, _) => ReadCopyOk(s, dir);
  }

  // ---- Failing to read ------------------------------------------------------------------------------

  /** A spilled body whose region's name is gone. */
  predicate Unfound(names: map<Name, nat>, dir: Dir, i: nat, w: Writer) {
    w.region.Some? && |w.payload.body| % U32 != 0 && w.marker > 0 && Name(dir, i, w.marker - 1) !in names
  }

  lemma MetaReads(s: State, dir: Dir)
    requires StageInv(s) && MemInv(s) && RegionInv(s) && CanRead(s, dir) && ReaderOf(s, dir).AtMeta?
    ensures ReaderOf(Read(s, dir), dir).AtBody?
  {
    hide Program, DecodeMeta, DecodeBody, Stored, Received;
    DataInPlace(s, dir);
    var i := ReaderOf(s, dir).i;
    var call := s.calls[s.occ[i]];
    var w := WriterOf(call, dir);
    SlotInMapping(s.g, i);
    hide StageInv, MemInv, RegionInv, RegionOk, LeadsTo;
    StoredMeta(s.mem, s.g, dir, i, call.id, w.payload, w.marker);
  }

  /** A region is found and copied if its name stands. */
  lemma BodyFailsIff(s: State, dir: Dir, c: nat, w: Writer)
    requires Shape(s) && CanRead(s, dir) && ReaderOf(s, dir).AtBody?
    requires SlotBase(ReaderOf(s, dir).i) + SLOT_META_SIZE <= |s.mem|
    requires var i := ReaderOf(s, dir).i;
             && Complete(s.g, dir, i, w) && RegionOk(s.regions, dir, c, i, w) && w.phase != Filling
             && LeadsTo(s.names, dir, i, w)
             && MarkerOk(s.g, dir, i, w.payload, w.marker)
             && DecodeBody(s.mem, s.g, dir, i) == ExpectedBody(s.g, dir, i, w.payload, w.marker)
    ensures var r := ReaderOf(Read(s, dir), dir);
            r.Got? && r.result.None? <==> Unfound(s.names, dir, ReaderOf(s, dir).i, w)
  {
    hide DecodeMeta, DecodeBody, DecodeId, DecodeTag, PlaceOf, OverflowSize;
    WholeBody(w.payload.body);
  }

  lemma ReadBodyFailsIff(s: State, dir: Dir)
    requires StageInv(s) && MemInv(s) && RegionInv(s) && CanRead(s, dir) && ReaderOf(s, dir).AtBody?
    ensures s.occ[ReaderOf(s, dir).i] < |s.calls|
    ensures var i, r := ReaderOf(s, dir).i, ReaderOf(Read(s, dir), dir);
            r.Got? && r.result.None? <==> Unfound(s.names, dir, i, WriterOf(s.calls[s.occ[i]], dir))
  {
    hide Program, DecodeBody, Stored, Read;
    DataInPlace(s, dir);
    var i := ReaderOf(s, dir).i;
    var call := s.calls[s.occ[i]];
    var w := WriterOf(call, dir);
    SlotInMapping(s.g, i);
    hide StageInv, MemInv, RegionInv;
    assert MarkerOk(s.g, dir, i, w.payload, w.marker);
    StoredBody(s.mem, s.g, dir, i, call.id, w.payload, w.marker);
    BodyFailsIff(s, dir, s.occ[i], w);
  }

  /** A read comes to an error exactly at the opening of a region whose name is gone. */
  lemma ReadFailsIff(s: State, dir: Dir)
    requires StageInv(s) && MemInv(s) && RegionInv(s) && CanRead(s, dir)
    ensures ReaderOf(s, dir).i < |s.occ| && s.occ[ReaderOf(s, dir).i] < |s.calls|
    ensures var i, r := ReaderOf(s, dir).i, ReaderOf(Read(s, dir), dir);
            r.Got? && r.result.None? <==>
              ReaderOf(s, dir).AtBody? && Unfound(s.names, dir, i, WriterOf(s.calls[s.occ[i]], dir))
  {
    OccupantReading(s);
    assert Shape(s);
    hide StageInv, MemInv, RegionInv, DecodeMeta, DecodeBody, DecodeId, DecodeTag, Unfound;
    match ReaderOf(s, dir)
    case AtMeta(_, _, _) => MetaReads(s, dir);
    case AtBody(_, _, _, _) => ReadBodyFailsIff(s, dir);
    case _ =>
  }

  // ---- Steps --------------------------------------------------------------------------------------

  /** A writer's move that changes neither the data of a request being read nor what was seen. */
  lemma CallStays(s: State, t: State, c: nat)
    requires ReaderInv(s) && Alike(s, t) && c < |s.calls| == |t.calls|
    requires t.occ == s.occ && t.worker == s.worker && t.watcher == s.watcher && t.calls == s.calls[c := t.calls[c]]
    requires t.calls[c].id == s.calls[c].id && SeenOk(t.calls[c])
    requires Reading(s.worker) && s.worker.i < s.g.numSlots && s.occ[s.worker.i] == c ==>
               t.calls[c].req.payload == s.calls[c].req.payload && t.calls[c].req.region == s.calls[c].req.region
    requires (Reading(s.watcher) && s.watcher.i < s.g.numSlots && s.occ[s.watcher.i] == c)
             || ((s.watcher.Freed? || s.watcher.Resolving?) && s.watcher.c == c) ==>
               t.calls[c].rsp.payload == s.calls[c].rsp.payload && t.calls[c].rsp.region == s.calls[c].rsp.region
    ensures ReaderInv(t)
  {
    hide ReadOk;
  }

  lemma StartReaders(s: State, id: seq<byte>, p: Payload)
    requires StageInv(s) && MemInv(s) && RegionInv(s) && ReaderInv(s) && FreshId(s, id)
    ensures ReaderInv(Start(s, id, p))
  {
    var t := Start(s, id, p);
    hide ReadOk;
    OccupantReading(s);
    assert ReaderInv(t);
  }

  lemma TakesReaders(s: State, t: State, c: nat, j: nat)
    requires StageInv(s) && ReaderInv(s) && c < |s.calls| && j < s.g.numSlots && Takes(s, t, c, j)
    requires s.calls[c].stage == Before && s.calls[c].rsp.phase == Idle
    ensures ReaderInv(t)
  {
    hide ReadOk, Received, ReceivedId;
    OccupantReading(s);
    assert s.watcher.Freed? || s.watcher.Resolving? ==> s.watcher.c != c;
    hide StageInv;
    assert SeenOk(t.calls[c]);
    hide SeenOk;
    assert ReaderInv(t);
  }

  lemma MovesOnReaders(s: State, t: State, c: nat)
    requires StageInv(s) && ReaderInv(s) && CanClaim(s, c) && MovesOn(s, t, c)
    requires s.calls[c].stage == Before && s.calls[c].rsp.phase == Idle
    ensures ReaderInv(t)
  {
    hide StageInv, ReaderInv, Received, ReceivedId;
    CallStays(s, t, c);
  }

  lemma ClaimReaders(s: State, c: nat)
    requires StageInv(s) && MemInv(s) && RegionInv(s) && ReaderInv(s) && CanClaim(s, c)
    ensures ReaderInv(Claim(s, c))
  {
    ClaimEffect(s, c);
    hide Claim, Takes, MovesOn, StageInv, ReaderInv, MemInv, RegionInv;
    if ClaimSucceeds(s, c) {
      TakesReaders(s, Claim(s, c), c, s.calls[c].req.phase.next);
    } else {
      MovesOnReaders(s, Claim(s, c), c);
    }
  }

  lemma RegisterReaders(s: State, c: nat)
    requires StageInv(s) && MemInv(s) && RegionInv(s) && ReaderInv(s) && CanRegister(s, c)
    ensures ReaderInv(Register(s, c))
  {
    var t := Register(s, c);
    hide ReadOk;
    assert ReaderInv(t);
  }

  lemma DropStaleReaders(s: State, dir: Dir, c: nat)
    requires StageInv(s) && MemInv(s) && RegionInv(s) && ReaderInv(s) && CanWriter(s, dir, c, Dropping)
    ensures ReaderInv(DropStale(s, dir, c))
  {
    var t := DropStale(s, dir, c);
    hide ReadOk;
    assert ReaderInv(t);
  }

  lemma WriteNextReaders(s: State, dir: Dir, c: nat)
    requires StageInv(s) && MemInv(s) && RegionInv(s) && ReaderInv(s) && CanWriteNext(s, dir, c)
    ensures ReaderInv(WriteNext(s, dir, c))
  {
    var t := WriteNext(s, dir, c);
    hide WriteNext, ProgramOf, ReadOk;
    assert ReaderInv(t);
  }

  /** No reader holds data of a writer that is still at work. */
  lemma PreparingApart(s: State, dir: Dir, c: nat)
    requires StageInv(s) && c < |s.calls| && Preparing(s.PhaseOf(dir, c))
    ensures s.calls[c].stage == In(if dir == Req then Writing else Claimed)
    ensures (s.calls[c].rsp.phase == Idle <==> dir == Req)
    ensures s.watcher.Freed? || s.watcher.Resolving? ==> s.watcher.c != c
    ensures Reading(s.watcher) && s.watcher.i < |s.occ| ==> s.occ[s.watcher.i] != c
    ensures Reading(s.worker) && s.worker.i < |s.occ| && s.occ[s.worker.i] == c ==> dir == Rsp
  {
    OccupantReading(s);
    assert CallFits(s, c);
  }

  lemma TryCreateReaders(s: State, dir: Dir, c: nat, fault: bool)
    requires StageInv(s) && MemInv(s) && RegionInv(s) && ReaderInv(s) && CanTryCreate(s, dir, c)
    ensures ReaderInv(TryCreate(s, dir, c, fault))
  {
    var t := TryCreate(s, dir, c, fault);
    PreparingApart(s, dir, c);
    assert Shape(s) && SeenOk(s.calls[c]);
    hide TryCreate, StageInv, MemInv, RegionInv, ReaderInv, Received, ReceivedId;
    assert SeenOk(t.calls[c]);
    hide SeenOk;
    CallStays(s, t, c);
  }

  lemma FillReaders(s: State, dir: Dir, c: nat)
    requires StageInv(s) && MemInv(s) && RegionInv(s) && ReaderInv(s) && CanFill(s, dir, c)
    ensures ReaderInv(Fill(s, dir, c))
  {
    var t := Fill(s, dir, c);
    hide ReadOk;
    assert ReaderInv(t);
  }

  lemma PublishReaders(s: State, dir: Dir, c: nat)
    requires StageInv(s) && MemInv(s) && RegionInv(s) && ReaderInv(s) && CanPublish(s, dir, c)
    ensures ReaderInv(Publish(s, dir, c))
  {
    var t := Publish(s, dir, c);
    hide ProgramOf, ReadOk;
    OccupantReading(s);
    assert ReaderInv(t);
  }

  lemma AbortReaders(s: State, dir: Dir, c: nat)
    requires StageInv(s) && MemInv(s) && RegionInv(s) && ReaderInv(s) && CanWriter(s, dir, c, Aborting)
    ensures ReaderInv(Abort(s, dir, c))
  {
    var t := Abort(s, dir, c);
    assert SeenOk(s.calls[c]);
    hide StageInv, MemInv, RegionInv, ReaderInv, Received, ReceivedId;
    assert SeenOk(t.calls[c]);
    hide SeenOk;
    CallStays(s, t, c);
  }

  lemma InsertHandleReaders(s: State, dir: Dir, c: nat)
    requires StageInv(s) && MemInv(s) && RegionInv(s) && ReaderInv(s) && CanWriter(s, dir, c, Inserting)
    ensures ReaderInv(InsertHandle(s, dir, c))
  {
    var t := InsertHandle(s, dir, c);
    hide InsertHandle, ReadOk, StageInv, MemInv, RegionInv, Received, ReceivedId;
    assert SeenOk(s.calls[c]);
    assert SeenOk(t.calls[c]);
    hide ReaderInv, SeenOk;
    CallStays(s, t, c);
  }

  lemma SignalReaders(s: State, dir: Dir, c: nat)
    requires StageInv(s) && MemInv(s) && RegionInv(s) && ReaderInv(s) && CanWriter(s, dir, c, Signalling)
    ensures ReaderInv(Signal(s, dir, c))
  {
    var t := Signal(s, dir, c);
    hide ReadOk;
    assert ReaderInv(t);
  }

  lemma WakeReaders(s: State, dir: Dir, timeout: bool)
    requires StageInv(s) && MemInv(s) && RegionInv(s) && ReaderInv(s) && CanWake(s, dir, timeout)
    ensures ReaderInv(Wake(s, dir, timeout))
  {
    var t := Wake(s, dir, timeout);
    hide ReadOk;
    assert ReaderInv(t);
  }

  lemma ScanTakesReaders(s: State, t: State, i: nat)
    requires StageInv(s) && ReaderInv(s) && s.worker == Scanning(i) && i < s.g.numSlots && s.status[i] == Ready
    requires Claims(s, t, i)
    ensures ReaderInv(t)
  {
    OccupantReading(s);
    hide StageInv, Received, ReceivedId;
    assert SeenOk(s.calls[s.occ[i]]);
    assert ReaderInv(t);
  }

  lemma LooksOnReaders(s: State, t: State, dir: Dir)
    requires ReaderInv(s) && CanScan(s, dir) && LooksOn(s, t, dir)
    ensures ReaderInv(t)
  {
    hide Received, ReceivedId, SeenOk;
    assert ReaderInv(t);
  }

  lemma ScanReaders(s: State, dir: Dir)
    requires StageInv(s) && MemInv(s) && RegionInv(s) && ReaderInv(s) && CanScan(s, dir)
    ensures ReaderInv(Scan(s, dir))
  {
    ScanEffect(s, dir);
    hide Scan, Claims, LooksOn, StageInv, ReaderInv, MemInv, RegionInv;
    if ScanTakes(s, dir) {
      ScanTakesReaders(s, Scan(s, dir), ReaderOf(s, dir).i);
    } else {
      LooksOnReaders(s, Scan(s, dir), dir);
    }
  }

  lemma ReadReaders(s: State, dir: Dir)
    requires StageInv(s) && MemInv(s) && RegionInv(s) && ReaderInv(s) && CanRead(s, dir)
    ensures ReaderInv(Read(s, dir))
  {
    var t := Read(s, dir);
    ReadMoves(s, dir);
    hide Read;
    assert ReaderInv(t);
  }

  /** The worker is done reading request `c`. */
  lemma WorkerLeaves(s: State, t: State, c: nat)
    requires ReaderInv(s) && Alike(s, t) && c < |s.calls| == |t.calls| && t.calls == s.calls[c := t.calls[c]]
    requires t.occ == s.occ && t.watcher == s.watcher && !Reading(t.worker)
    requires t.calls[c].id == s.calls[c].id && SeenOk(t.calls[c])
    requires t.calls[c].rsp.payload == s.calls[c].rsp.payload && t.calls[c].rsp.region == s.calls[c].rsp.region
    ensures ReaderInv(t)
  {
    hide ReadOk, SeenOk;
    assert ReaderInv(t);
  }

  lemma FinishReadSeen(s: State)
    requires StageInv(s) && ReaderInv(s) && CanFinishRead(s)
    ensures s.occ[s.worker.i] < |s.calls|
    ensures s.worker.result.None? ==> s.calls[s.occ[s.worker.i]].req.region.Some?
    ensures s.worker.result.Some? ==>
              s.worker.id == ReceivedId(s.calls[s.occ[s.worker.i]].id)
              && s.worker.result.value == Received(Req, s.calls[s.occ[s.worker.i]].req.payload)
  {
    OccupantReading(s);
    assert ReadsCall(s.calls[s.occ[s.worker.i]], Req, s.worker);
    hide StageInv, ReaderInv, Received, ReceivedId;
  }

  lemma GivesUpReaders(s: State, t: State)
    requires Shape(s) && ReaderInv(s) && CanFinishRead(s) && GivesUp(s, t)
    requires s.calls[s.occ[s.worker.i]].req.region.Some? && s.calls[s.occ[s.worker.i]].rsp.phase == Idle
    ensures ReaderInv(t)
  {
    hide ReaderInv, Received, ReceivedId;
    WorkerLeaves(s, t, s.occ[s.worker.i]);
  }

  lemma HandsOverReaders(s: State, t: State)
    requires Shape(s) && ReaderInv(s) && CanFinishRead(s) && s.worker.result.Some? && HandsOver(s, t)
    requires s.calls[s.occ[s.worker.i]].stage == In(Claimed)
    requires s.worker.id == ReceivedId(s.calls[s.occ[s.worker.i]].id)
    requires s.worker.result.value == Received(Req, s.calls[s.occ[s.worker.i]].req.payload)
    ensures ReaderInv(t)
  {
    hide ReaderInv, Received, ReceivedId;
    WorkerLeaves(s, t, s.occ[s.worker.i]);
  }

  lemma FinishReadReaders(s: State)
    requires StageInv(s) && MemInv(s) && RegionInv(s) && ReaderInv(s) && CanFinishRead(s)
    ensures ReaderInv(FinishRead(s))
  {
    FinishReadEffect(s);
    FinishReadSeen(s);
    hide FinishRead, GivesUp, HandsOver, StageInv, ReaderInv, MemInv, RegionInv, Received, ReceivedId;
    if s.worker.result.None? {
      GivesUpReaders(s, FinishRead(s));
    } else {
      HandsOverReaders(s, FinishRead(s));
    }
  }

  lemma AskedApart(s: State, c: nat)
    requires StageInv(s) && c < |s.calls| && s.PhaseOf(Rsp, c) == Asked
    ensures s.calls[c].stage == In(Claimed)
    ensures s.watcher.Freed? || s.watcher.Resolving? ==> s.watcher.c != c
    ensures Reading(s.watcher) && s.watcher.i < |s.occ| ==> s.occ[s.watcher.i] != c
  {
    OccupantReading(s);
    assert CallFits(s, c);
  }

  lemma RespondReaders(s: State, c: nat, p: Payload)
    requires StageInv(s) && MemInv(s) && RegionInv(s) && ReaderInv(s) && CanWriter(s, Rsp, c, Asked)
    ensures ReaderInv(Respond(s, c, p))
  {
    var t := Respond(s, c, p);
    AskedApart(s, c);
    assert Shape(s) && SeenOk(s.calls[c]);
    hide StageInv, MemInv, RegionInv, ReaderInv, Received, ReceivedId;
    assert SeenOk(t.calls[c]);
    hide SeenOk;
    CallStays(s, t, c);
  }

  lemma LeaveHandlerReaders(s: State)
    requires StageInv(s) && MemInv(s) && RegionInv(s) && ReaderInv(s) && CanLeaveHandler(s)
    ensures ReaderInv(LeaveHandler(s))
  {
    var t := LeaveHandler(s);
    hide ReadOk;
    assert ReaderInv(t);
  }

  lemma FreesReaders(s: State, t: State)
    requires Shape(s) && ReaderInv(s) && CanFree(s) && Frees(s, t) && s.calls[s.occ[s.watcher.i]].stage.In?
    requires Reading(s.worker) && s.worker.i < s.g.numSlots ==> s.occ[s.worker.i] != s.occ[s.watcher.i]
    ensures ReaderInv(t)
  {
    var c := s.occ[s.watcher.i];
    hide Received, ReceivedId;
    assert ReadsCall(s.calls[c], Rsp, s.watcher) && SeenOk(s.calls[c]);
    assert ReadsCall(t.calls[c], Rsp, t.watcher) && SeenOk(t.calls[c]);
    hide ReadOk, SeenOk;
    assert AllSeen(t);
    hide AllSeen;
    assert WatcherReads(t) && WorkerReads(t);
  }

  lemma FreeSlotReaders(s: State)
    requires StageInv(s) && MemInv(s) && RegionInv(s) && ReaderInv(s) && CanFree(s)
    ensures ReaderInv(FreeSlot(s))
  {
    FreeEffect(s);
    OccupantReading(s);
    hide FreeSlot, Frees, StageInv, ReaderInv, MemInv, RegionInv;
    FreesReaders(s, FreeSlot(s));
  }

  lemma DropRequestHandleReaders(s: State)
    requires StageInv(s) && MemInv(s) && RegionInv(s) && ReaderInv(s) && s.watcher.Freed?
    ensures ReaderInv(DropRequestHandle(s))
  {
    var t := DropRequestHandle(s);
    assert ReaderInv(t);
  }

  lemma ResolveSeen(s: State)
    requires AllSeen(s) && s.watcher.Resolving?
    ensures AllSeen(Resolve(s))
  {
    var t := Resolve(s);
    assert Outcome(s) != RequestUnread;
    hide Resolve, Outcome, Received, ReceivedId;
    forall d | 0 <= d < |t.calls| ensures SeenOk(t.calls[d]) {
      assert SeenOk(s.calls[d]);
    }
  }

  lemma ResolveReaders(s: State)
    requires StageInv(s) && MemInv(s) && RegionInv(s) && ReaderInv(s) && s.watcher.Resolving?
    ensures ReaderInv(Resolve(s))
  {
    var t := Resolve(s);
    ResolveSeen(s);
    hide Resolve, Outcome, StageInv, MemInv, RegionInv, AllSeen, ReadOk;
    assert WorkerReads(t);
  }

  lemma VanishReaders(s: State, name: Name)
    requires StageInv(s) && MemInv(s) && RegionInv(s) && ReaderInv(s) && name in s.names && s.names[name] !in s.held
    ensures ReaderInv(Vanish(s, name))
  {
    var t := Vanish(s, name);
    hide ReadOk;
    assert ReaderInv(t);
  }

  lemma ReadersStep(s: State, a: Action)
    requires StageInv(s) && MemInv(s) && RegionInv(s) && ReaderInv(s) && Enabled(s, a)
    ensures ReaderInv(Step(s, a))
  {
    match a
    case DoStart(id, p) =>
      StartReaders(s, id, p);
    case DoClaim(c) =>
      ClaimReaders(s, c);
    case DoRegister(c) =>
      RegisterReaders(s, c);
    case DoDropStale(dir, c) =>
      DropStaleReaders(s, dir, c);
    case DoWriteNext(dir, c) =>
      WriteNextReaders(s, dir, c);
    case DoTryCreate(dir, c, fault) =>
      TryCreateReaders(s, dir, c, fault);
    case DoFill(dir, c) =>
      FillReaders(s, dir, c);
    case DoPublish(dir, c) =>
      PublishReaders(s, dir, c);
    case DoAbort(dir, c) =>
      AbortReaders(s, dir, c);
    case DoInsertHandle(dir, c) =>
      InsertHandleReaders(s, dir, c);
    case DoSignal(dir, c) =>
      SignalReaders(s, dir, c);
    case DoWake(dir, timeout) =>
      WakeReaders(s, dir, timeout);
    case DoScan(dir) =>
      ScanReaders(s, dir);
    case DoRead(dir) =>
      ReadReaders(s, dir);
    case DoFinishRead =>
      FinishReadReaders(s);
    case DoRespond(c, p) =>
      RespondReaders(s, c, p);
    case DoLeaveHandler =>
      LeaveHandlerReaders(s);
    case DoFree =>
      FreeSlotReaders(s);
    case DoDropRequestHandle =>
      DropRequestHandleReaders(s);
    case DoResolve =>
      ResolveReaders(s);
    case DoVanish(name) =>
      VanishReaders(s, name);
  }
}
