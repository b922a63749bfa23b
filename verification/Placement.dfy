/** Where a payload goes, and whether it is refused, is settled by the slot, the geometry and the
    payload's own lengths: nothing that other slots carry can crowd a slot out. */
module Placement {
  import opened Bytes
  import opened Layout
  import opened Slots
  import opened Protocol
  import opened Stages
  import opened Memory
  import opened Runs

  /** Room in the slot's own arena half, said with plain arithmetic and without the slot index. */
  predicate HasRoom(g: Geometry, dir: Dir, metaLen: nat, bodyLen: nat) {
    metaLen <= ArenaLen(g, dir) && (bodyLen == 0 || Align8(metaLen) + bodyLen <= ArenaLen(g, dir))
  }

  lemma TooLargeIff(g: Geometry, dir: Dir, i: nat, p: Payload)
    requires Sound(g) && i < g.numSlots
    ensures TooLarge(g, dir, i, p) <==> !HasRoom(g, dir, |p.meta|, |p.body|)
  {
    Threshold(g, dir, i, |p.meta|, |p.body|);
  }

  /** The mapping's bounds check never fails a write, in any run. */
  lemma WritesInBounds(run: seq<State>, acts: seq<Action>, k: nat, dir: Dir, c: nat)
    requires IsRun(run, acts) && k < |run| && CanWriteNext(run[k], dir, c)
    ensures NextWrite(run[k], dir, run[k].calls[c], run[k].PhaseOf(dir, c).k) != OutOfBounds
  {
    RunInv(run, acts, k);
    hide IsRun, StageInv, MemInv;
    NeverOutOfBounds(run[k], dir, c);
  }

  predicate Turned(call: Call, dir: Dir) {
    call.stage == After(if dir == Req then RequestRefused else ResponseRefused)
  }

  /** A published payload stayed inside its slot's arena half or lies in a region of its own, as its
      lengths say. */
  predicate Placed(g: Geometry, dir: Dir, w: Writer) {
    && |w.payload.meta| <= ArenaLen(g, dir)
    && (w.region.None? <==> HasRoom(g, dir, |w.payload.meta|, |w.payload.body|))
  }

  lemma OutcomeOf(s: State, dir: Dir, c: nat)
    requires StageInv(s) && MemInv(s) && c < |s.calls| && s.calls[c].slot < s.g.numSlots
    ensures Turned(s.calls[c], dir) ==>
              !HasRoom(s.g, dir, |WriterOf(s.calls[c], dir).payload.meta|, |WriterOf(s.calls[c], dir).payload.body|)
    ensures Published(dir, s.PhaseOf(dir, c)) ==> Placed(s.g, dir, WriterOf(s.calls[c], dir))
  {
    var call := s.calls[c];
    assert CallMem(s, c);
    TooLargeIff(s.g, dir, call.slot, WriterOf(call, dir).payload);
    hide Program, Stored, LandedAt, HasRoom;
  }

  /** A dispatch or response that has room in its own arena half is never turned away, whatever the
      rest of the bus has done before; when it does not have room it spills or is refused. */
  lemma RoomIsEnough(run: seq<State>, acts: seq<Action>, k: nat, dir: Dir, c: nat)
    requires IsRun(run, acts) && k < |run| && c < |run[k].calls| && run[k].calls[c].slot < run[k].g.numSlots
    ensures var s, w := run[k], WriterOf(run[k].calls[c], dir);
            && (HasRoom(s.g, dir, |w.payload.meta|, |w.payload.body|) ==> !Turned(s.calls[c], dir))
            && (Published(dir, w.phase) ==> Placed(s.g, dir, w))
  {
    RunInv(run, acts, k);
    hide IsRun, StageInv, MemInv;
    OutcomeOf(run[k], dir, c);
  }

  predicate SameKind(x: WriteStep, y: WriteStep) {
    x.RefuseMeta? == y.RefuseMeta? && x.NeedRegion? == y.NeedRegion? && x.Make? == y.Make?
  }

  /** Payloads of the same lengths have programs that write to the same places. */
  lemma SamePlaces(g: Geometry, dir: Dir, i: nat, id: seq<byte>, p: Payload, m: nat, id': seq<byte>, p': Payload,
                   m': nat, k: nat)
    requires |p'.meta| == |p.meta| && |p'.body| == |p.body|
    ensures |Program(g, dir, i, id', p', m')| == |Program(g, dir, i, id, p, m)|
    ensures k < |Program(g, dir, i, id, p, m)| ==>
              Program(g, dir, i, id', p', m')[k].off == Program(g, dir, i, id, p, m)[k].off
  {
    hide ShortId, U16Bytes, U32Bytes;
  }

  predicate SameLengths(x: Call, y: Call, dir: Dir) {
    && y.slot == x.slot
    && |WriterOf(y, dir).payload.meta| == |WriterOf(x, dir).payload.meta|
    && |WriterOf(y, dir).payload.body| == |WriterOf(x, dir).payload.body|
  }

  lemma SameDecision(s: State, c: nat, s': State, c': nat, dir: Dir)
    requires StageInv(s) && MemInv(s) && StageInv(s') && MemInv(s') && s'.g == s.g
    requires CanWriteNext(s, dir, c) && CanWriteNext(s', dir, c') && SameLengths(s.calls[c], s'.calls[c'], dir)
    requires s'.PhaseOf(dir, c') == s.PhaseOf(dir, c)
    requires WriterOf(s.calls[c], dir).region.None? == WriterOf(s'.calls[c'], dir).region.None?
    ensures var k := s.PhaseOf(dir, c).k;
            var x, y := NextWrite(s, dir, s.calls[c], k), NextWrite(s', dir, s'.calls[c'], k);
            SameKind(x, y) && (x.Make? && y.Make? ==> y.w.off == x.w.off)
  {
    var call, call' := s.calls[c], s'.calls[c'];
    var w, w' := WriterOf(call, dir), WriterOf(call', dir);
    NeverOutOfBounds(s, dir, c);
    NeverOutOfBounds(s', dir, c');
    hide StageInv, MemInv;
    SamePlaces(s.g, dir, call.slot, call.id, w.payload, w.marker, call'.id, w'.payload, w'.marker, w.phase.k);
    hide Program;
  }

  /** Two calls of any two runs, on the same slot of the same layout with payloads of the same
      lengths, decide the same at every write of their programs and write at the same offsets. */
  lemma HistoryIndependence(run: seq<State>, acts: seq<Action>, k: nat, c: nat,
                            run': seq<State>, acts': seq<Action>, k': nat, c': nat, dir: Dir)
    requires IsRun(run, acts) && k < |run| && IsRun(run', acts') && k' < |run'| && run'[k'].g == run[k].g
    requires CanWriteNext(run[k], dir, c) && CanWriteNext(run'[k'], dir, c')
    requires SameLengths(run[k].calls[c], run'[k'].calls[c'], dir)
    requires run'[k'].PhaseOf(dir, c') == run[k].PhaseOf(dir, c)
    requires WriterOf(run[k].calls[c], dir).region.None? == WriterOf(run'[k'].calls[c'], dir).region.None?
    ensures var j := run[k].PhaseOf(dir, c).k;
            var x, y := NextWrite(run[k], dir, run[k].calls[c], j), NextWrite(run'[k'], dir, run'[k'].calls[c'], j);
            SameKind(x, y) && (x.Make? && y.Make? ==> y.w.off == x.w.off)
  {
    RunInv(run, acts, k);
    RunInv(run', acts', k');
    hide IsRun, StageInv, MemInv, CanWriteNext, SameLengths, NextWrite;
    SameDecision(run[k], c, run'[k'], c', dir);
  }

  /** A finished write of either direction, its request still in the slot. */
  predicate Finished(s: State, dir: Dir, c: nat) {
    && Shape(s) && c < |s.calls| && s.calls[c].slot < s.g.numSlots
    && match dir
       case Req => s.calls[c].stage == In(Ready) || s.calls[c].stage == In(Claimed) || s.calls[c].stage == In(Done)
       case Rsp => s.calls[c].stage == In(Done)
  }

  /** Where the slot's fields now say the metadata is, and how long; and the same of the body, up to the
      generation of its region. */
  function StoredAt(mem: seq<byte>, dir: Dir, i: nat): (seq<nat>, bool)
    requires SlotBase(i) + SLOT_META_SIZE <= |mem|
  {
    var f, ptr := SlotBase(i) + FieldBase(dir), DecodePointer(mem, dir, i);
    ([FromLittleEndian(mem[f..f + 4]), FromLittleEndian(mem[f + 4..f + 6]), ptr.offset, ptr.len], ptr.marker == 0)
  }

  /** The same, worked out from the geometry and the lengths alone. */
  function PlacedAt(g: Geometry, dir: Dir, i: nat, metaLen: nat, bodyLen: nat): (seq<nat>, bool) {
    var base := ArenaBase(g, dir, i) % U32;
    match Place(g, dir, i, metaLen, bodyLen)
    case Empty => ([base, metaLen % U16, 0, 0], true)
    case Inline(off) => ([base, metaLen % U16, off % U32, bodyLen % U32], true)
    case Spill => ([base, metaLen % U16, 0, bodyLen % U32], false)
  }

  lemma FinishedStored(s: State, dir: Dir, c: nat)
    requires StageInv(s) && MemInv(s) && Finished(s, dir, c)
    ensures var call, w := s.calls[c], WriterOf(s.calls[c], dir);
            StoredBy(s.mem, s.g, dir, call.slot, call.id, w) && Complete(s.g, dir, call.slot, w)
  {
    assert CallMem(s, c) && CallFits(s, c);
    hide StageInv, MemInv, Program, StoredBy, Underway, Complete;
  }

  lemma StoredPlace(mem: seq<byte>, g: Geometry, dir: Dir, i: nat, id: seq<byte>, p: Payload, marker: nat)
    requires SlotBase(i) + SLOT_META_SIZE <= |mem| && Stored(mem, g, dir, i, id, p, marker)
    requires MarkerOk(g, dir, i, p, marker)
    ensures StoredAt(mem, dir, i) == PlacedAt(g, dir, i, |p.meta|, |p.body|)
  {
    StoredParts(mem, g, dir, i, id, p, marker);
    hide Stored, MetaWrites, BodyWrites, AllAt, DecodePointer, FromLittleEndian, ArenaBase, Place;
    MetaPointer(mem, g, dir, i, p);
    PointerReadsBack(mem, g, dir, i, p, marker);
  }

  lemma FinishedPlace(s: State, dir: Dir, c: nat)
    requires StageInv(s) && MemInv(s) && Finished(s, dir, c)
    ensures SlotBase(s.calls[c].slot) + SLOT_META_SIZE <= |s.mem|
    ensures var i, p := s.calls[c].slot, WriterOf(s.calls[c], dir).payload;
            StoredAt(s.mem, dir, i) == PlacedAt(s.g, dir, i, |p.meta|, |p.body|)
  {
    var call, w := s.calls[c], WriterOf(s.calls[c], dir);
    FinishedStored(s, dir, c);
    SlotInMapping(s.g, call.slot);
    hide StageInv, MemInv, Stored, MetaFits, PlaceOf, StoredAt, PlacedAt;
    StoredPlace(s.mem, s.g, dir, call.slot, call.id, w.payload, w.marker);
  }

  /** In any two states of any two runs of the same layout, two finished writes to the same slot and
      direction with the same lengths lie at the same place, as the slot's fields in memory say: what the
      rest of the bus has done before makes no difference. */
  lemma SamePlacement(run: seq<State>, acts: seq<Action>, k: nat, c: nat,
                      run': seq<State>, acts': seq<Action>, k': nat, c': nat, dir: Dir)
    requires IsRun(run, acts) && k < |run| && IsRun(run', acts') && k' < |run'| && run'[k'].g == run[k].g
    requires Finished(run[k], dir, c) && Finished(run'[k'], dir, c')
    requires SameLengths(run[k].calls[c], run'[k'].calls[c'], dir)
    ensures var i := run[k].calls[c].slot;
            && SlotBase(i) + SLOT_META_SIZE <= |run[k].mem| && SlotBase(i) + SLOT_META_SIZE <= |run'[k'].mem|
            && StoredAt(run[k].mem, dir, i) == StoredAt(run'[k'].mem, dir, i)
    ensures WriterOf(run[k].calls[c], dir).region.None? == WriterOf(run'[k'].calls[c'], dir).region.None?
  {
    RunInv(run, acts, k);
    RunInv(run', acts', k');
    hide IsRun, StageInv, MemInv, StoredAt, PlacedAt, StoredBy;
    FinishedPlace(run[k], dir, c);
    FinishedPlace(run'[k'], dir, c');
    FinishedStored(run[k], dir, c);
    FinishedStored(run'[k'], dir, c');
    hide Finished;
  }
}
