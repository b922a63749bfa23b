/** Building runs: a dispatch that writes its request, small or large, the worker that reads it, the
    handler that answers, and the watcher that empties the slot, one after the other on slot 0. */
module Plays {
  import opened Bytes
  import opened Layout
  import opened Slots
  import opened Protocol
  import opened Stages
  import opened Memory
  import opened Regions
  import opened Readers
  import opened Pending
  import opened Wakeups
  import opened SyncHandlers
  import opened Runs

  /** A payload with room in the slot's arena half. */
  predicate Small(g: Geometry, dir: Dir, p: Payload) {
    MetaFits(g, dir, p) && !PlaceOf(g, dir, 0, p).Spill?
  }

  /** A payload whose body has to go to an overflow region. */
  predicate Large(g: Geometry, dir: Dir, p: Payload) {
    MetaFits(g, dir, p) && PlaceOf(g, dir, 0, p).Spill?
  }

  // ---- Writing ------------------------------------------------------------------------------------------

  /** State `s` but with one writer moved on to its write `k`, and other bytes in the region. */
  predicate WroteTo(s: State, t: State, dir: Dir, c: nat, k: nat) {
    && c < |s.calls| && t.calls == s.calls[c := WithPhase(s.calls[c], dir, Storing(k))]
    && t == s.(calls := t.calls, mem := t.mem) && |t.mem| == |s.mem|
  }

  /** Nothing stands in the way of the writer's writes before `k`. */
  predicate MayWriteTo(s: State, dir: Dir, c: nat, k: nat) {
    && Shape(s) && c < |s.calls| && s.calls[c].slot < s.g.numSlots && s.PhaseOf(dir, c).Storing?
    && s.PhaseOf(dir, c).k <= k <= |ProgramOf(s, dir, s.calls[c])|
    && MetaFits(s.g, dir, WriterOf(s.calls[c], dir).payload)
    && (SpillsAt(s.g, dir, s.calls[c].slot, WriterOf(s.calls[c], dir).payload)
        && WriterOf(s.calls[c], dir).region.None? ==>
          k <= BodyIndex(dir))
  }

  lemma WritesOnce(s: State, dir: Dir, c: nat, k: nat)
    requires StageInv(s) && MemInv(s) && MayWriteTo(s, dir, c, k) && s.PhaseOf(dir, c).k < k
    ensures CanWriteNext(s, dir, c) && WroteTo(s, WriteNext(s, dir, c), dir, c, s.PhaseOf(dir, c).k + 1)
    ensures MayWriteTo(WriteNext(s, dir, c), dir, c, k)
  {
    NeverOutOfBounds(s, dir, c);
    hide StageInv, MemInv, Program;
  }

  lemma WritesReached(o: State, s: State, dir: Dir, c: nat, k: nat)
    requires Reaches(o, s) && MayWriteTo(s, dir, c, k) && s.PhaseOf(dir, c).k < k
    ensures CanWriteNext(s, dir, c) && WroteTo(s, WriteNext(s, dir, c), dir, c, s.PhaseOf(dir, c).k + 1)
    ensures MayWriteTo(WriteNext(s, dir, c), dir, c, k)
  {
    ReachInv(o, s);
    hide StageInv, MemInv, RegionInv, ReaderInv, PendingInv, WakeInv, SyncInv, ProgramOf, WriteNext, WroteTo, Reaches;
    WritesOnce(s, dir, c, k);
  }

  lemma WriteMore(o: State, s: State, dir: Dir, c: nat, k: nat) returns (t: State)
    requires Reaches(o, s) && MayWriteTo(s, dir, c, k) && s.PhaseOf(dir, c).k < k
    ensures Reaches(o, t) && MayWriteTo(t, dir, c, k) && WroteTo(s, t, dir, c, s.PhaseOf(dir, c).k + 1)
  {
    WritesReached(o, s, dir, c, k);
    assert Shape(s);
    hide ProgramOf, WriteNext, WroteTo, Reaches, MayWriteTo;
    ReachStep(o, s, DoWriteNext(dir, c));
    t := WriteNext(s, dir, c);
  }

  /** A writer can get to any write that nothing stands in the way of. */
  lemma {:induction false} WritesTo(o: State, s: State, dir: Dir, c: nat, k: nat) returns (t: State)
    requires Reaches(o, s) && MayWriteTo(s, dir, c, k)
    ensures Reaches(o, t) && WroteTo(s, t, dir, c, k)
    decreases k - s.PhaseOf(dir, c).k
  {
    t := s;
    hide Reaches, ProgramOf, SpillsAt;
    if s.PhaseOf(dir, c).k < k {
      t := WriteMore(o, s, dir, c, k);
      t := WritesTo(o, t, dir, c, k);
    }
  }

  /** A writer at its first write, with its payload not placed yet. */
  predicate Starts(s: State, dir: Dir, c: nat) {
    && Shape(s) && c < |s.calls| && s.calls[c].slot == 0 && s.PhaseOf(dir, c) == Storing(0)
    && WriterOf(s.calls[c], dir).region.None?
  }

  /** Either writer of a small payload gets to its status store. */
  lemma SmallWritten(o: State, s: State, dir: Dir, c: nat) returns (t: State)
    requires Reaches(o, s) && Starts(s, dir, c) && Small(s.g, dir, WriterOf(s.calls[c], dir).payload)
    ensures Reaches(o, t) && WroteTo(s, t, dir, c, |ProgramOf(s, dir, s.calls[c])|) && CanPublish(t, dir, c)
  {
    hide Reaches, Program;
    t := WritesTo(o, s, dir, c, |ProgramOf(s, dir, s.calls[c])|);
  }

  /** What the writing of a payload that spills may change. */
  predicate Moved(s: State, t: State, dir: Dir, c: nat) {
    && c < |s.calls| == |t.calls| && t.calls == s.calls[c := t.calls[c]]
    && t.calls[c] == WithWriter(s.calls[c], dir, WriterOf(t.calls[c], dir))
    && WriterOf(t.calls[c], dir).payload == WriterOf(s.calls[c], dir).payload
    && t == s.(calls := t.calls, mem := t.mem, regions := t.regions, names := t.names, held := t.held)
    && |t.mem| == |s.mem|
  }

  lemma HeadThenBody(g: Geometry, dir: Dir, i: nat, id: seq<byte>, p: Payload, marker: nat)
    ensures BodyIndex(dir) < |Program(g, dir, i, id, p, marker)|
  {
    hide PlaceOf, U32Bytes, U16Bytes;
  }

  /** The head and the metadata of a large payload go in. */
  lemma HeadWritten(o: State, s: State, dir: Dir, c: nat) returns (t: State)
    requires Reaches(o, s) && Starts(s, dir, c) && Large(s.g, dir, WriterOf(s.calls[c], dir).payload)
    ensures Reaches(o, t) && WroteTo(s, t, dir, c, BodyIndex(dir))
  {
    HeadThenBody(s.g, dir, s.calls[c].slot, s.calls[c].id, WriterOf(s.calls[c], dir).payload,
                 WriterOf(s.calls[c], dir).marker);
    hide Reaches, Program;
    t := WritesTo(o, s, dir, c, BodyIndex(dir));
  }

  lemma NeedsRegion(s: State, dir: Dir, c: nat)
    requires Shape(s) && c < |s.calls| && s.calls[c].slot == 0 && s.PhaseOf(dir, c) == Storing(BodyIndex(dir))
    requires WriterOf(s.calls[c], dir).region.None? && Large(s.g, dir, WriterOf(s.calls[c], dir).payload)
    ensures CanWriteNext(s, dir, c)
    ensures WriteNext(s, dir, c) == s.(calls := s.calls[c := WithPhase(s.calls[c], dir, Creating(0))])
  {
    HeadThenBody(s.g, dir, s.calls[c].slot, s.calls[c].id, WriterOf(s.calls[c], dir).payload,
                 WriterOf(s.calls[c], dir).marker);
    hide Program;
  }

  /** Its body does not fit, and it sets out to create a region. */
  lemma BodySpills(o: State, s: State, dir: Dir, c: nat) returns (t: State)
    requires Reaches(o, s) && Starts(s, dir, c) && Large(s.g, dir, WriterOf(s.calls[c], dir).payload)
    ensures Reaches(o, t) && Moved(s, t, dir, c) && t.regions == s.regions && t.names == s.names
    ensures WriterOf(t.calls[c], dir) == WriterOf(s.calls[c], dir).(phase := Creating(0))
  {
    t := HeadWritten(o, s, dir, c);
    hide Reaches, Large, ProgramOf, Program;
    NeedsRegion(t, dir, c);
    hide WriteNext;
    ReachStep(o, t, DoWriteNext(dir, c));
    t := WriteNext(t, dir, c);
  }

  /** Generations before `gen` are taken, and `gen` is not. */
  ghost predicate FirstFree(names: map<Name, nat>, dir: Dir, gen: nat) {
    && gen <= MAX_OVERFLOW_GENERATION && Name(dir, 0, gen) !in names
    && forall h: nat :: h < gen ==> Name(dir, 0, h) in names
  }

  /** The walk over taken names. */
  lemma {:induction false} Walks(o: State, s: State, dir: Dir, c: nat, gen: nat) returns (t: State)
    requires Reaches(o, s) && Shape(s) && c < |s.calls| && s.calls[c].slot == 0 && s.PhaseOf(dir, c).Creating?
    requires FirstFree(s.names, dir, gen) && s.PhaseOf(dir, c).gen <= gen
    ensures Reaches(o, t) && t == s.(calls := s.calls[c := WithPhase(s.calls[c], dir, Creating(gen))])
    decreases gen - s.PhaseOf(dir, c).gen
  {
    t := s;
    hide Reaches;
    if s.PhaseOf(dir, c).gen < gen {
      ReachStep(o, s, DoTryCreate(dir, c, false));
      t := TryCreate(s, dir, c, false);
      assert t == s.(calls := s.calls[c := WithPhase(s.calls[c], dir, Creating(s.PhaseOf(dir, c).gen + 1))]);
      hide TryCreate;
      t := Walks(o, t, dir, c, gen);
    }
  }

  /** A region is created under a free name and filled. */
  lemma Creates(o: State, s: State, dir: Dir, c: nat) returns (t: State)
    requires Reaches(o, s) && Shape(s) && c < |s.calls| && s.calls[c].slot == 0 && s.PhaseOf(dir, c).Creating?
    requires Name(dir, 0, s.PhaseOf(dir, c).gen) !in s.names
    ensures var gen := s.PhaseOf(dir, c).gen;
            && Reaches(o, t) && Moved(s, t, dir, c) && t.names == s.names[Name(dir, 0, gen) := |s.regions|]
            && |s.regions| in t.held
            && WriterOf(t.calls[c], dir)
              == WriterOf(s.calls[c], dir).(phase := Storing(BodyIndex(dir)), region := Some(|s.regions|),
                                            marker := gen + 1)
  {
    hide Reaches, OverflowSize, FilledPages;
    ReachStep(o, s, DoTryCreate(dir, c, false));
    t := TryCreate(s, dir, c, false);
    ReachStep(o, t, DoFill(dir, c));
    t := Fill(t, dir, c);
  }

  lemma BodyMayWrite(s: State, dir: Dir, c: nat)
    requires Shape(s) && c < |s.calls| && s.calls[c].slot == 0 && s.PhaseOf(dir, c) == Storing(BodyIndex(dir))
    requires WriterOf(s.calls[c], dir).region.Some? && Large(s.g, dir, WriterOf(s.calls[c], dir).payload)
    ensures MayWriteTo(s, dir, c, |ProgramOf(s, dir, s.calls[c])|)
  {
    var call, w := s.calls[c], WriterOf(s.calls[c], dir);
    HeadThenBody(s.g, dir, call.slot, call.id, w.payload, w.marker);
    hide Program;
  }

  /** A large request or response gets to its status store, with its body in a region of generation `gen`. */
  lemma LargeWritten(o: State, s: State, dir: Dir, c: nat, gen: nat) returns (t: State)
    requires Reaches(o, s) && Starts(s, dir, c) && Large(s.g, dir, WriterOf(s.calls[c], dir).payload)
    requires FirstFree(s.names, dir, gen)
    ensures Reaches(o, t) && Moved(s, t, dir, c) && CanPublish(t, dir, c)
    ensures t.names == s.names[Name(dir, 0, gen) := |s.regions|] && |s.regions| in t.held
    ensures WriterOf(t.calls[c], dir).region == Some(|s.regions|) && WriterOf(t.calls[c], dir).marker == gen + 1
  {
    assert Name(dir, 0, gen) !in s.names;
    hide Reaches, Program, Large, FirstFree;
    t := BodySpills(o, s, dir, c);
    t := Walks(o, t, dir, c, gen);
    t := Creates(o, t, dir, c);
    BodyMayWrite(t, dir, c);
    hide MayWriteTo;
    t := WritesTo(o, t, dir, c, |ProgramOf(t, dir, t.calls[c])|);
  }

  // ---- Reading ---------------------------------------------------------------------------------------------

  function ReadsLeft(r: Reader): nat {
    match r
    case AtHead(_) => 4
    case AtMeta(_, _, _) => 3
    case AtBody(_, _, _, _) => 2
    case Copying(_, _, _, _, _, _) => 1
    case _ => 0
  }

  /** A reader with a region left to find or copy. */
  predicate ReadsAt(s: State, dir: Dir) {
    Shape(s) && Reading(ReaderOf(s, dir)) && ReaderOf(s, dir).i < |s.occ| && s.occ[ReaderOf(s, dir).i] < |s.calls|
  }

  predicate Lacks(s: State, dir: Dir)
    requires ReadsAt(s, dir)
  {
    Unfound(s.names, dir, ReaderOf(s, dir).i, WriterOf(s.calls[s.occ[ReaderOf(s, dir).i]], dir))
  }

  lemma ReadProgress(s: State, dir: Dir)
    requires Shape(s) && CanRead(s, dir)
    ensures var r, r' := ReaderOf(s, dir), ReaderOf(Read(s, dir), dir);
            && ReadsLeft(r') < ReadsLeft(r) && (r'.Copying? ==> r.AtBody?) && (r.AtBody? ==> r'.Copying? || r'.Got?)
            && (r'.Got? ==> r.AtBody? || r.Copying? || r'.result.None?)
  {
    hide DecodeMeta, DecodeBody, DecodeId, DecodeTag;
  }

  lemma MayCopy(s: State, dir: Dir)
    requires StageInv(s) && MemInv(s) && RegionInv(s) && ReaderInv(s) && ReaderOf(s, dir).Copying?
    ensures CanRead(s, dir)
  {
    hide Program, StoredBy, Complete, LeadsTo;
    DataInPlace(s, dir);
    var w := WriterOf(s.calls[s.occ[ReaderOf(s, dir).i]], dir);
    assert ReadsCall(s.calls[s.occ[ReaderOf(s, dir).i]], dir, ReaderOf(s, dir));
    hide StageInv, MemInv, RegionInv, ReaderInv, Received, ReceivedId, FilledPages;
    WholeBody(w.payload.body);
    PagesPrefix(w.payload.body, ReaderOf(s, dir).len);
  }

  lemma MayRead(s: State, dir: Dir)
    requires StageInv(s) && MemInv(s) && RegionInv(s) && ReaderInv(s) && Reading(ReaderOf(s, dir))
    requires !ReaderOf(s, dir).Got?
    ensures CanRead(s, dir)
  {
    if ReaderOf(s, dir).Copying? {
      MayCopy(s, dir);
    }
    OccupantReading(s);
    hide StageInv, MemInv, RegionInv, ReaderInv;
  }

  lemma ReadReached(o: State, s: State, dir: Dir)
    requires Reaches(o, s) && ReadsAt(s, dir) && !ReaderOf(s, dir).Got?
    ensures CanRead(s, dir)
    ensures var r := ReaderOf(Read(s, dir), dir);
            r.Got? && r.result.None? <==> ReaderOf(s, dir).AtBody? && Lacks(s, dir)
  {
    ReachInv(o, s);
    assert StageInv(s) && MemInv(s) && RegionInv(s) && ReaderInv(s);
    hide Inv, StageInv, MemInv, RegionInv, ReaderInv, Reaches, Read, CanRead, Unfound;
    MayRead(s, dir);
    ReadFailsIff(s, dir);
  }

  lemma ReadMore(o: State, s: State, dir: Dir) returns (t: State)
    requires Reaches(o, s) && ReadsAt(s, dir) && !ReaderOf(s, dir).Got?
    ensures Reaches(o, t) && ReadsAt(t, dir) && t == WithReader(s, dir, ReaderOf(t, dir))
    ensures ReaderOf(t, dir).i == ReaderOf(s, dir).i
    ensures ReadsLeft(ReaderOf(t, dir)) < ReadsLeft(ReaderOf(s, dir))
    ensures ReaderOf(t, dir).Got? && ReaderOf(t, dir).result.None? <==> ReaderOf(s, dir).AtBody? && Lacks(s, dir)
    ensures ReaderOf(t, dir).Copying? ==> ReaderOf(s, dir).AtBody?
    ensures ReaderOf(s, dir).AtBody? ==> ReaderOf(t, dir).Copying? || ReaderOf(t, dir).Got?
    ensures ReaderOf(t, dir).Got? ==> ReaderOf(s, dir).AtBody? || ReaderOf(s, dir).Copying?
  {
    ReadReached(o, s, dir);
    hide Reaches, Read, CanRead, ReadsLeft, Unfound;
    ReadProgress(s, dir);
    ReachStep(o, s, DoRead(dir));
    t := Read(s, dir);
  }

  /** A reader gets to the end of a request, with an error exactly if its region is not to be found. */
  lemma {:induction false} ReadsOn(o: State, s: State, dir: Dir) returns (t: State)
    requires Reaches(o, s) && ReadsAt(s, dir) && !ReaderOf(s, dir).Got?
    ensures Reaches(o, t) && t == WithReader(s, dir, ReaderOf(t, dir)) && ReaderOf(t, dir).Got?
    ensures ReaderOf(t, dir).i == ReaderOf(s, dir).i
    ensures ReaderOf(t, dir).result.None? <==> !ReaderOf(s, dir).Copying? && Lacks(s, dir)
    decreases ReadsLeft(ReaderOf(s, dir))
  {
    t := ReadMore(o, s, dir);
    hide Reaches, ReadsLeft, Unfound;
    if !ReaderOf(t, dir).Got? {
      t := ReadsOn(o, t, dir);
    }
  }

  // ---- One exchange ------------------------------------------------------------------------------------------

  predicate Quiet(status: seq<Status>) {
    forall j :: 1 <= j < |status| ==> status[j] == Free
  }

  /** The first and only request of the bus is in slot 0, no pending entry has been made yet. */
  predicate Alone(s: State, id: seq<byte>, req: Phase, rsp: Phase, st: Status) {
    && Shape(s) && |s.calls| == 1 && s.pending == map[] && s.handles == map[] && Quiet(s.status)
    && s.status[0] == st && s.occ[0] == 0
    && s.calls[0].slot == 0 && s.calls[0].id == id
    && s.calls[0].req.phase == req && s.calls[0].rsp.phase == rsp
    && s.calls[0].rsp.region.None?
  }

  /** The first request's data and the names stay as they are. */
  predicate Carries(s: State, t: State) {
    && t.g == s.g && t.sync == s.sync && t.names == s.names && |s.calls| > 0 && |t.calls| > 0
    && t.calls[0].req.payload == s.calls[0].req.payload && t.calls[0].req.region == s.calls[0].req.region
    && t.calls[0].req.marker == s.calls[0].req.marker && t.calls[0].slot == s.calls[0].slot
  }

  /** The first request's region, if it has one, can be found. */
  predicate Findable(s: State) {
    && |s.calls| > 0
    && (s.calls[0].req.region.Some? ==> s.calls[0].req.marker > 0 && Name(Req, 0, s.calls[0].req.marker - 1) in s.names)
  }

  lemma Opening(o: State, id: seq<byte>, q: Payload) returns (t: State)
    requires Init(o) && ValidId(id)
    ensures Reaches(o, t) && t.g == o.g && t.sync == o.sync && t.names == o.names
    ensures Alone(t, id, Storing(0), Idle, Writing)
    ensures Starts(t, Req, 0) && t.calls[0].req.payload == q && t.worker == Waiting && t.watcher == Waiting
  {
    ReachInit(o);
    hide Reaches;
    ReachStep(o, o, DoStart(id, q));
    t := Start(o, id, q);
    ReachStep(o, t, DoClaim(0));
    t := Claim(t, 0);
    ReachStep(o, t, DoDropStale(Req, 0));
    t := DropStale(t, Req, 0);
  }

  /** The scan of either reader, from the start, finds the published slot 0. */
  lemma Found(o: State, s: State, dir: Dir) returns (t: State)
    requires Reaches(o, s) && Shape(s) && s.status[0] == PublishedStatus(dir) && s.occ[0] < |s.calls|
    requires ReaderOf(s, dir) == Waiting
    ensures Reaches(o, t) && ReaderOf(t, dir) == AtHead(0)
    ensures var c := s.occ[0];
            t == WithReader(WithEvent(s.(status := t.status, calls := t.calls), dir, EventOf(t, dir)), dir, AtHead(0))
            && t.status == (if dir == Req then s.status[0 := Claimed] else s.status)
            && t.calls == (if dir == Req then s.calls[c := s.calls[c].(stage := In(Claimed))] else s.calls)
  {
    hide Reaches;
    ReachStep(o, s, DoWake(dir, true));
    t := Wake(s, dir, true);
    ReachStep(o, t, DoScan(dir));
    t := Scan(t, dir);
  }

  lemma PublishedAlone(o: State, s: State, id: seq<byte>) returns (t: State)
    requires Reaches(o, s) && |s.calls| == 1 && Alone(s, id, s.PhaseOf(Req, 0), Idle, Writing) && CanPublish(s, Req, 0)
    ensures Reaches(o, t) && Alone(t, id, Inserting, Idle, Ready) && Carries(s, t) && t.worker == s.worker
    ensures t.watcher == s.watcher
  {
    hide Reaches, ProgramOf;
    ReachStep(o, s, DoPublish(Req, 0));
    t := Publish(s, Req, 0);
  }

  lemma FoundAlone(o: State, s: State, id: seq<byte>) returns (t: State)
    requires Reaches(o, s) && Alone(s, id, Inserting, Idle, Ready) && s.worker == Waiting
    ensures Reaches(o, t) && Alone(t, id, Inserting, Idle, Claimed) && Carries(s, t) && t.worker == AtHead(0)
    ensures t.watcher == s.watcher
  {
    hide Reaches;
    t := Found(o, s, Req);
  }

  lemma ReadAlone(o: State, s: State, id: seq<byte>) returns (t: State)
    requires Reaches(o, s) && Alone(s, id, Inserting, Idle, Claimed) && s.worker == AtHead(0) && Findable(s)
    ensures Reaches(o, t) && Alone(t, id, Inserting, Idle, Claimed) && Carries(s, t)
    ensures t.worker.Got? && t.worker.i == 0 && t.worker.result.Some? && t.watcher == s.watcher
  {
    hide Reaches;
    t := ReadsOn(o, s, Req);
  }

  lemma AskedAlone(o: State, s: State, id: seq<byte>) returns (t: State)
    requires Reaches(o, s) && Alone(s, id, Inserting, Idle, Claimed)
    requires s.worker.Got? && s.worker.i == 0 && s.worker.result.Some?
    ensures Reaches(o, t) && Alone(t, id, Inserting, Asked, Claimed) && Carries(s, t) && t.watcher == s.watcher
    ensures t.worker == if s.sync then Handling(0, 0) else Scanning(1)
  {
    hide Reaches;
    ReachStep(o, s, DoFinishRead);
    t := FinishRead(s);
  }

  /** The request is published and, before anything else of its dispatch, reaches the handler. */
  lemma Handed(o: State, s: State, id: seq<byte>) returns (t: State)
    requires Reaches(o, s) && |s.calls| == 1 && Alone(s, id, s.PhaseOf(Req, 0), Idle, Writing) && CanPublish(s, Req, 0)
    requires s.worker == Waiting && s.watcher == Waiting && Findable(s)
    ensures Reaches(o, t) && Alone(t, id, Inserting, Asked, Claimed) && Carries(s, t) && t.watcher == Waiting
    ensures t.worker == if s.sync then Handling(0, 0) else Scanning(1)
  {
    hide Reaches, CanPublish, Alone;
    t := PublishedAlone(o, s, id);
    t := FoundAlone(o, t, id);
    t := ReadAlone(o, t, id);
    t := AskedAlone(o, t, id);
  }

  /** What the answering of a request leaves alone. */
  predicate Answering(s: State, t: State, r: Payload) {
    Carries(s, t) && t.worker == s.worker && t.watcher == s.watcher && t.calls[0].rsp.payload == r
  }

  lemma AnswerStarts(o: State, s: State, id: seq<byte>, r: Payload) returns (t: State)
    requires Reaches(o, s) && Alone(s, id, Inserting, Asked, Claimed)
    ensures Reaches(o, t) && Alone(t, id, Inserting, Storing(0), Claimed) && Answering(s, t, r)
  {
    hide Reaches;
    ReachStep(o, s, DoRespond(0, r));
    t := Respond(s, 0, r);
    ReachStep(o, t, DoDropStale(Rsp, 0));
    t := DropStale(t, Rsp, 0);
  }

  lemma AnswerPublished(o: State, s: State, id: seq<byte>) returns (t: State)
    requires Reaches(o, s) && |s.calls| == 1 && Alone(s, id, Inserting, s.PhaseOf(Rsp, 0), Claimed)
    requires CanPublish(s, Rsp, 0)
    ensures Reaches(o, t) && Alone(t, id, Inserting, Inserting, Done) && Answering(s, t, s.calls[0].rsp.payload)
  {
    hide Reaches, ProgramOf;
    ReachStep(o, s, DoPublish(Rsp, 0));
    t := Publish(s, Rsp, 0);
  }

  lemma AnswerSignalled(o: State, s: State, id: seq<byte>) returns (t: State)
    requires Reaches(o, s) && Alone(s, id, Inserting, Inserting, Done)
    ensures Reaches(o, t) && Alone(t, id, Inserting, Returned, Done) && Answering(s, t, s.calls[0].rsp.payload)
  {
    hide Reaches;
    ReachStep(o, s, DoInsertHandle(Rsp, 0));
    t := InsertHandle(s, Rsp, 0);
    ReachStep(o, t, DoSignal(Rsp, 0));
    t := Signal(t, Rsp, 0);
  }

  /** The handler answers. */
  lemma Answered(o: State, s: State, id: seq<byte>, r: Payload) returns (t: State)
    requires Reaches(o, s) && Alone(s, id, Inserting, Asked, Claimed) && Small(s.g, Rsp, r)
    ensures Reaches(o, t) && Alone(t, id, Inserting, Returned, Done) && Answering(s, t, r)
  {
    hide Reaches, Small, Program;
    t := AnswerStarts(o, s, id, r);
    t := SmallWritten(o, t, Rsp, 0);
    hide ProgramOf;
    t := AnswerPublished(o, t, id);
    t := AnswerSignalled(o, t, id);
  }

  /** A reader's scan runs out over free slots. */
  lemma {:induction false} ScansOut(o: State, s: State, dir: Dir, i: nat) returns (t: State)
    requires Reaches(o, s) && Shape(s) && ReaderOf(s, dir) == Scanning(i) && i >= 1 && Quiet(s.status)
    ensures Reaches(o, t) && t == WithReader(s, dir, Waiting)
    decreases s.g.numSlots - i
  {
    hide Reaches;
    ReachStep(o, s, DoScan(dir));
    t := Scan(s, dir);
    if i < s.g.numSlots {
      assert s.status[i] == Free && t == WithReader(s, dir, Scanning(i + 1));
      hide Scan;
      t := ScansOut(o, t, dir, i + 1);
    }
  }

  /** The worker goes back to waiting. */
  lemma Idled(o: State, s: State, id: seq<byte>) returns (t: State)
    requires Reaches(o, s) && Alone(s, id, Inserting, Returned, Done)
    requires s.worker == if s.sync then Handling(0, 0) else Scanning(1)
    ensures Reaches(o, t) && t == s.(worker := Waiting)
  {
    hide Reaches;
    t := s;
    if s.sync {
      ReachStep(o, s, DoLeaveHandler);
      t := LeaveHandler(s);
    }
    t := ScansOut(o, t, Req, 1);
  }

  /** From the status store of the first request to that of its response, and the worker idle again. */
  lemma Exchange(o: State, s: State, id: seq<byte>, r: Payload) returns (t: State)
    requires Reaches(o, s) && |s.calls| == 1 && Alone(s, id, s.PhaseOf(Req, 0), Idle, Writing) && CanPublish(s, Req, 0)
    requires s.worker == Waiting && s.watcher == Waiting && Findable(s) && Small(s.g, Rsp, r)
    ensures Reaches(o, t) && Alone(t, id, Inserting, Returned, Done) && Carries(s, t)
    ensures t.calls[0].rsp.payload == r && t.worker == Waiting && t.watcher == Waiting
  {
    hide Reaches, Small, CanPublish, Quiet;
    t := Handed(o, s, id);
    t := Answered(o, t, id, r);
    t := Idled(o, t, id);
  }

  lemma ResponseFound(o: State, s: State, id: seq<byte>) returns (t: State)
    requires Reaches(o, s) && Alone(s, id, Inserting, Returned, Done) && s.watcher == Waiting
    ensures Reaches(o, t) && Alone(t, id, Inserting, Returned, Done) && Carries(s, t)
    ensures t.calls[0].rsp.payload == s.calls[0].rsp.payload && t.worker == s.worker
    ensures t.watcher.Got? && t.watcher.i == 0 && t.watcher.result.Some?
  {
    hide Reaches, Quiet;
    t := Found(o, s, Rsp);
    t := ReadsOn(o, t, Rsp);
  }

  /** The watcher reads the response and frees the slot. */
  lemma Emptied(o: State, s: State, id: seq<byte>) returns (t: State)
    requires Reaches(o, s) && Alone(s, id, Inserting, Returned, Done) && s.watcher == Waiting
    ensures Reaches(o, t) && Alone(t, id, Inserting, Returned, Free) && Carries(s, t)
    ensures t.calls[0].rsp.payload == s.calls[0].rsp.payload && t.worker == s.worker
    ensures t.watcher.Freed? && t.watcher.i == 0 && t.watcher.c == 0 && t.watcher.result.Some?
  {
    hide Reaches;
    t := ResponseFound(o, s, id);
    ReachStep(o, t, DoFree);
    t := FreeSlot(t);
  }

  /** The first request small, with room in its slot. */
  lemma OpensSmall(o: State, id: seq<byte>, q: Payload) returns (t: State)
    requires Init(o) && ValidId(id) && Small(o.g, Req, q)
    ensures Reaches(o, t) && t.g == o.g && t.names == o.names && |t.calls| == 1
    ensures Alone(t, id, t.PhaseOf(Req, 0), Idle, Writing)
    ensures CanPublish(t, Req, 0) && Findable(t) && t.calls[0].req.payload == q && t.worker == Waiting
    ensures t.sync == o.sync && t.calls[0].req.region.None?
    ensures t.watcher == Waiting
  {
    hide Reaches, Init, Small, Program;
    t := Opening(o, id, q);
    t := SmallWritten(o, t, Req, 0);
    hide CanPublish;
  }

  /** The first request large, in a region of generation 0. */
  lemma OpensLarge(o: State, id: seq<byte>, q: Payload) returns (t: State)
    requires Init(o) && ValidId(id) && Large(o.g, Req, q) && Name(Req, 0, 0) !in o.names
    ensures Reaches(o, t) && t.g == o.g && t.names.Keys == o.names.Keys + {Name(Req, 0, 0)}
    ensures |t.calls| == 1 && Alone(t, id, t.PhaseOf(Req, 0), Idle, Writing)
    ensures CanPublish(t, Req, 0) && Findable(t) && t.calls[0].req.payload == q && t.calls[0].req.region.Some?
    ensures t.worker == Waiting && t.watcher == Waiting
  {
    hide Reaches, Init, Large;
    t := Opening(o, id, q);
    assert FirstFree(t.names, Req, 0);
    t := LargeWritten(o, t, Req, 0, 0);
    hide CanPublish;
  }

  // ---- A second request ---------------------------------------------------------------------------------------

  /** What a second call on the bus leaves alone. */
  predicate Besides(s: State, t: State) {
    && t.g == s.g && t.sync == s.sync && t.worker == s.worker && t.watcher == s.watcher
    && |s.calls| == 1 && |t.calls| == 2 && t.calls[0] == s.calls[0]
  }

  /** A second request takes slot 0. */
  lemma Reused(o: State, s: State, id: seq<byte>, p: Payload) returns (t: State)
    requires Reaches(o, s) && Shape(s) && |s.calls| == 1 && s.status[0] == Free && s.handles == map[]
    requires ValidId(id) && s.calls[0].id != id
    ensures Reaches(o, t) && Besides(s, t) && t.names == s.names && t.handles == map[] && Starts(t, Req, 1)
    ensures t.calls[1].id == id && t.calls[1].req.payload == p && t.calls[1].stage == In(Writing)
    ensures t.calls[1].rsp.phase == Idle && t.calls[1].rsp.region.None?
    ensures t.status == s.status[0 := Writing] && t.occ[0] == 1 && t.pending == s.pending
  {
    hide Reaches;
    ReachStep(o, s, DoStart(id, p));
    t := Start(s, id, p);
    ReachStep(o, t, DoClaim(1));
    t := Claim(t, 1);
    ReachStep(o, t, DoDropStale(Req, 1));
    t := DropStale(t, Req, 1);
  }
}
