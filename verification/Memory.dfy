/** What the shared bytes hold: every writer's finished writes are still in place, whatever the
    other threads have done meanwhile. */
module Memory {
  import opened Bytes
  import opened Layout
  import opened Slots
  import opened Protocol
  import opened Stages

  // ---- Where a writer stands in its program ---------------------------------------------

  predicate HasRegion(w: Writer) {
    w.region.Some? && 0 < w.marker <= 255
  }

  /** A writer whose data is complete: metadata that fits, a region exactly when the body spills. */
  predicate Complete(g: Geometry, dir: Dir, i: nat, w: Writer) {
    && MetaFits(g, dir, w.payload)
    && (if SpillsAt(g, dir, i, w.payload) then HasRegion(w) else w.region.None?)
  }

  /** The only reasons for a writer to give up: metadata larger than the arena half, or a body that
      does not fit beside it, for which no overflow region could be made. */
  predicate TooLarge(g: Geometry, dir: Dir, i: nat, p: Payload) {
    !MetaFits(g, dir, p) || SpillsAt(g, dir, i, p)
  }

  predicate WriterFits(g: Geometry, dir: Dir, i: nat, id: seq<byte>, w: Writer) {
    match w.phase
    case Storing(k) =>
      && k <= |Program(g, dir, i, id, w.payload, w.marker)|
      && (HeadLen(dir) < k ==> MetaFits(g, dir, w.payload))
      && (w.region.Some? ==> BodyIndex(dir) <= k && HasRegion(w) && SpillsAt(g, dir, i, w.payload))
      && (BodyIndex(dir) < k ==> Complete(g, dir, i, w))
    case Creating(gen) => gen <= MAX_OVERFLOW_GENERATION && MetaFits(g, dir, w.payload)
         && SpillsAt(g, dir, i, w.payload) && w.region.None?
    case Filling => Complete(g, dir, i, w) && SpillsAt(g, dir, i, w.payload)
    case Aborting => TooLarge(g, dir, i, w.payload)
    case Refused => true
    case Inserting => Complete(g, dir, i, w)
    case Registering => Complete(g, dir, i, w)
    case Signalling => Complete(g, dir, i, w)
    case Returned => Complete(g, dir, i, w)
    case _ => w.region.None?
  }

  // ---- What is in place --------------------------------------------------------------------

  ghost predicate LandedAt(mem: seq<byte>, g: Geometry, dir: Dir, i: nat, id: seq<byte>, p: Payload, marker: nat,
                           k: nat) {
    k <= |Program(g, dir, i, id, p, marker)| && AllAt(mem, Landed(g, dir, i, id, p, marker, k))
  }

  /** The writes a preparing writer has made so far have landed. */
  ghost predicate Underway(mem: seq<byte>, g: Geometry, dir: Dir, i: nat, id: seq<byte>, w: Writer) {
    match w.phase
    case Storing(k) => LandedAt(mem, g, dir, i, id, w.payload, w.marker, k)
    case Creating(_) => LandedAt(mem, g, dir, i, id, w.payload, w.marker, BodyIndex(dir))
    case Filling => LandedAt(mem, g, dir, i, id, w.payload, w.marker, BodyIndex(dir))
    case _ => true
  }

  ghost predicate StoredBy(mem: seq<byte>, g: Geometry, dir: Dir, i: nat, id: seq<byte>, w: Writer) {
    Stored(mem, g, dir, i, id, w.payload, w.marker)
  }

  ghost predicate InPlace(mem: seq<byte>, g: Geometry, stage: Stage, i: nat, id: seq<byte>, req: Writer, rsp: Writer) {
    match stage
    case In(Writing) => Underway(mem, g, Req, i, id, req)
    case In(Ready) => StoredBy(mem, g, Req, i, id, req)
    case In(Claimed) => StoredBy(mem, g, Req, i, id, req) && Underway(mem, g, Rsp, i, id, rsp)
    case In(Done) => StoredBy(mem, g, Req, i, id, req) && StoredBy(mem, g, Rsp, i, id, rsp)
    case After(RequestRefused) => TooLarge(g, Req, i, req.payload)
    case After(ResponseRefused) => TooLarge(g, Rsp, i, rsp.payload)
    case _ => true
  }

  ghost predicate CallMem(s: State, c: nat)
    requires c < |s.calls|
  {
    var call := s.calls[c];
    && WriterFits(s.g, Req, call.slot, call.id, call.req)
    && WriterFits(s.g, Rsp, call.slot, call.id, call.rsp)
    && InPlace(s.mem, s.g, call.stage, call.slot, call.id, call.req, call.rsp)
  }

  ghost predicate MemInv(s: State) {
    forall c {:trigger s.calls[c]} {:trigger CallMem(s, c)} :: 0 <= c < |s.calls| ==> CallMem(s, c)
  }

  // ---- Writes ----------------------------------------------------------------------------------

  lemma LandedAtFrame(mem: seq<byte>, w: Write, g: Geometry, dir': Dir, i': nat,
                      dir: Dir, i: nat, id: seq<byte>, p: Payload, marker: nat, k: nat)
    requires Sound(g) && i < g.numSlots && i' < g.numSlots && (dir != dir' || i != i')
    requires Fits(mem, w) && InFootprint(g, dir', i', w)
    requires HeadLen(dir) < k ==> MetaFits(g, dir, p)
    requires LandedAt(mem, g, dir, i, id, p, marker, k)
    ensures LandedAt(Splice(mem, w), g, dir, i, id, p, marker, k)
  {
    LandedFrame(mem, w, g, dir', i', dir, i, id, p, marker, k);
  }

  /** A write in another footprint leaves a request's bytes alone. */
  lemma UnderwayFrame(mem: seq<byte>, v: Write, g: Geometry, dir': Dir, i': nat,
                      dir: Dir, i: nat, id: seq<byte>, w: Writer)
    requires Sound(g) && i < g.numSlots && i' < g.numSlots && (dir != dir' || i != i')
    requires Fits(mem, v) && InFootprint(g, dir', i', v)
    requires WriterFits(g, dir, i, id, w) && Underway(mem, g, dir, i, id, w)
    ensures Underway(Splice(mem, v), g, dir, i, id, w)
  {
    hide LandedAt, Program, InFootprint, Splice;
    match w.phase
    case Storing(k) => LandedAtFrame(mem, v, g, dir', i', dir, i, id, w.payload, w.marker, k);
    case Creating(_) => LandedAtFrame(mem, v, g, dir', i', dir, i, id, w.payload, w.marker, BodyIndex(dir));
    case Filling => LandedAtFrame(mem, v, g, dir', i', dir, i, id, w.payload, w.marker, BodyIndex(dir));
    case _ =>
  }

  /** Another slot's write leaves all of a request's bytes alone. */
  lemma InPlaceFrame(mem: seq<byte>, v: Write, g: Geometry, dir': Dir, i': nat,
                     stage: Stage, i: nat, id: seq<byte>, req: Writer, rsp: Writer)
    requires Sound(g) && i < g.numSlots && i' < g.numSlots && i != i'
    requires Fits(mem, v) && InFootprint(g, dir', i', v)
    requires WriterFits(g, Req, i, id, req) && WriterFits(g, Rsp, i, id, rsp) && PhasesFit(stage, req.phase, rsp.phase)
    requires InPlace(mem, g, stage, i, id, req, rsp)
    ensures InPlace(Splice(mem, v), g, stage, i, id, req, rsp)
  {
    hide Stored, Program, InFootprint, Splice, LandedAt;
    match stage
    case In(Writing) => UnderwayFrame(mem, v, g, dir', i', Req, i, id, req);
    case In(Ready) => StoredFrame(mem, v, g, dir', i', Req, i, id, req.payload, req.marker);
    case In(Claimed) =>
      StoredFrame(mem, v, g, dir', i', Req, i, id, req.payload, req.marker);
      UnderwayFrame(mem, v, g, dir', i', Rsp, i, id, rsp);
    case In(Done) =>
      StoredFrame(mem, v, g, dir', i', Req, i, id, req.payload, req.marker);
      StoredFrame(mem, v, g, dir', i', Rsp, i, id, rsp.payload, rsp.marker);
    case _ =>
  }
  // ---- Steps --------------------------------------------------------------------------------------

  lemma CompleteAtEnd(g: Geometry, dir: Dir, i: nat, id: seq<byte>, w: Writer)
    requires w.phase.Storing? && w.phase.k == |Program(g, dir, i, id, w.payload, w.marker)|
    requires WriterFits(g, dir, i, id, w)
    ensures Complete(g, dir, i, w)
  {
    assert BodyIndex(dir) < |Program(g, dir, i, id, w.payload, w.marker)|;
  }

  lemma LandedAnyMarker(mem: seq<byte>, g: Geometry, dir: Dir, i: nat, id: seq<byte>, p: Payload, m: nat, m': nat)
    requires LandedAt(mem, g, dir, i, id, p, m, BodyIndex(dir))
    ensures LandedAt(mem, g, dir, i, id, p, m', BodyIndex(dir))
  {
    PrefixIgnoresMarker(g, dir, i, id, p, m, m');
  }

  lemma TryCreateWriter(s: State, dir: Dir, c: nat, fault: bool)
    requires MemInv(s) && CanTryCreate(s, dir, c)
    requires Underway(s.mem, s.g, dir, s.calls[c].slot, s.calls[c].id, WriterOf(s.calls[c], dir))
    ensures var call, w := s.calls[c], WriterOf(TryCreate(s, dir, c, fault).calls[c], dir);
            WriterFits(s.g, dir, call.slot, call.id, w) && Underway(s.mem, s.g, dir, call.slot, call.id, w)
  {
    hide TryCreate, Program, LandedAt, InPlace;
    var call := s.calls[c];
    var w := WriterOf(call, dir);
    var w' := WriterOf(TryCreate(s, dir, c, fault).calls[c], dir);
    assert CallMem(s, c);
    LandedAnyMarker(s.mem, s.g, dir, call.slot, call.id, w.payload, w.marker, w'.marker);
  }

  /** The next write of a program is in its writer's own footprint, hence in the mapping. */
  lemma WriteInFootprint(s: State, dir: Dir, c: nat)
    requires StageInv(s) && MemInv(s) && CanWriteNext(s, dir, c)
    requires NextWrite(s, dir, s.calls[c], s.PhaseOf(dir, c).k) != RefuseMeta
    ensures var w := ProgramOf(s, dir, s.calls[c])[s.PhaseOf(dir, c).k];
            InFootprint(s.g, dir, s.calls[c].slot, w) && Fits(s.mem, w)
  {
    var call := s.calls[c];
    var k := s.PhaseOf(dir, c).k;
    var p := WriterOf(call, dir);
    assert CallMem(s, c);
    ProgramInFootprint(s.g, dir, call.slot, call.id, p.payload, p.marker, k);
    FootprintFits(s.g, dir, call.slot, ProgramOf(s, dir, call)[k], s.mem);
  }

  lemma MakeWrite(s: State, dir: Dir, c: nat)
    requires StageInv(s) && MemInv(s) && CanWriteNext(s, dir, c)
    requires NextWrite(s, dir, s.calls[c], s.PhaseOf(dir, c).k).Make?
    ensures MemInv(WriteNext(s, dir, c))
  {
    var t := WriteNext(s, dir, c);
    var call := s.calls[c];
    var k := s.PhaseOf(dir, c).k;
    var v := ProgramOf(s, dir, call)[k];
    WriteInFootprint(s, dir, c);
    assert t.mem == Splice(s.mem, v) && t.calls[c] == WithPhase(call, dir, Storing(k + 1));
    MakeWriteOwn(s, dir, c);
    hide WriteNext, Program, InFootprint, Splice, InPlace, WriterFits, ProgramOf, NextWrite;
    forall d | 0 <= d < |t.calls| ensures CallMem(t, d) {
      if d != c {
        assert CallMem(s, d) && CallFits(s, c) && CallFits(s, d);
        if s.calls[d].stage.In? {
          InPlaceFrame(s.mem, v, s.g, dir, call.slot, s.calls[d].stage, s.calls[d].slot, s.calls[d].id, s.calls[d].req,
                       s.calls[d].rsp);
        } else {
          NotInPlace(s.mem, t.mem, s.g, s.calls[d].stage, s.calls[d].slot, s.calls[d].id, s.calls[d].req,
                     s.calls[d].rsp);
        }
      }
    }
  }

  lemma NotInPlace(mem: seq<byte>, mem': seq<byte>, g: Geometry, stage: Stage, i: nat, id: seq<byte>, req: Writer,
                   rsp: Writer)
    requires !stage.In? && InPlace(mem, g, stage, i, id, req, rsp)
    ensures InPlace(mem', g, stage, i, id, req, rsp)
  {
  }

  lemma LandedAtNext(mem: seq<byte>, g: Geometry, dir: Dir, i: nat, id: seq<byte>, p: Payload, marker: nat, k: nat)
    requires Sound(g) && i < g.numSlots && MappedSize(g) <= |mem|
    requires k < |Program(g, dir, i, id, p, marker)| && Fits(mem, Program(g, dir, i, id, p, marker)[k])
    requires LandedAt(mem, g, dir, i, id, p, marker, k)
    ensures LandedAt(Splice(mem, Program(g, dir, i, id, p, marker)[k]), g, dir, i, id, p, marker, k + 1)
  {
    LandNext(mem, g, dir, i, id, p, marker, k);
  }

  lemma WriterAdvances(s: State, dir: Dir, c: nat)
    requires MemInv(s) && CanWriteNext(s, dir, c)
    requires NextWrite(s, dir, s.calls[c], s.PhaseOf(dir, c).k).Make?
    ensures WriterFits(s.g, dir, s.calls[c].slot, s.calls[c].id,
                       WriterOf(s.calls[c], dir).(phase := Storing(s.PhaseOf(dir, c).k + 1)))
  {
    assert CallMem(s, c);
    hide Program, InPlace;
  }

  lemma MakeWriteOwn(s: State, dir: Dir, c: nat)
    requires StageInv(s) && MemInv(s) && CanWriteNext(s, dir, c)
    requires NextWrite(s, dir, s.calls[c], s.PhaseOf(dir, c).k).Make?
    ensures CallMem(WriteNext(s, dir, c), c)
  {
    hide Program, LandedAt, InFootprint, Splice;
    var t := WriteNext(s, dir, c);
    var call := s.calls[c];
    var w := WriterOf(call, dir);
    var k := w.phase.k;
    var v := ProgramOf(s, dir, call)[k];
    assert CallMem(s, c) && CallFits(s, c);
    WriteInFootprint(s, dir, c);
    LandedAtNext(s.mem, s.g, dir, call.slot, call.id, w.payload, w.marker, k);
    assert t.mem == Splice(s.mem, v) && t.calls[c] == WithPhase(call, dir, Storing(k + 1));
    WriterAdvances(s, dir, c);
    hide WriteNext, ProgramOf;
    OwnInPlace(s.mem, v, s.g, dir, call, k);
  }

  /** The writer's own request after one of its writes: the other direction is undisturbed. */
  lemma OwnInPlace(mem: seq<byte>, v: Write, g: Geometry, dir: Dir, call: Call, k: nat)
    requires Sound(g) && call.slot < g.numSlots && Fits(mem, v) && InFootprint(g, dir, call.slot, v)
    requires WriterFits(g, Req, call.slot, call.id, call.req) && WriterFits(g, Rsp, call.slot, call.id, call.rsp)
    requires PhasesFit(call.stage, call.req.phase, call.rsp.phase) && WriterOf(call, dir).phase == Storing(k)
    requires InPlace(mem, g, call.stage, call.slot, call.id, call.req, call.rsp)
    requires LandedAt(Splice(mem, v), g, dir, call.slot, call.id, WriterOf(call, dir).payload,
                      WriterOf(call, dir).marker, k + 1)
    ensures var call' := WithPhase(call, dir, Storing(k + 1));
            InPlace(Splice(mem, v), g, call.stage, call.slot, call.id, call'.req, call'.rsp)
  {
    hide Program, InFootprint, Splice, Stored, LandedAt;
    if dir == Rsp {
      StoredFrame(mem, v, g, dir, call.slot, Req, call.slot, call.id, call.req.payload, call.req.marker);
    }
  }

  lemma StartMem(s: State, id: seq<byte>, p: Payload)
    requires StageInv(s) && MemInv(s) && FreshId(s, id)
    ensures MemInv(Start(s, id, p))
  {
    var t := Start(s, id, p);
    hide Stored, LandedAt, Program;
    assert MemInv(t);
  }

  lemma TakesMem(s: State, t: State, c: nat, j: nat)
    requires MemInv(s) && Shape(s) && c < |s.calls| && j < s.g.numSlots && Takes(s, t, c, j)
    requires s.calls[c].req.phase.Looking? && s.calls[c].rsp.phase == Idle
    ensures MemInv(t)
  {
    hide Stored, LandedAt, Program;
    assert CallMem(s, c);
    forall d | 0 <= d < |t.calls| ensures CallMem(t, d) {
      assert CallMem(s, d);
    }
  }

  lemma MovesOnMem(s: State, t: State, c: nat)
    requires MemInv(s) && Shape(s) && CanClaim(s, c) && MovesOn(s, t, c) && s.calls[c].stage == Before
    ensures MemInv(t)
  {
    hide Stored, LandedAt, Program;
    assert CallMem(s, c);
    forall d | 0 <= d < |t.calls| ensures CallMem(t, d) {
      assert CallMem(s, d);
    }
  }

  lemma ClaimMem(s: State, c: nat)
    requires StageInv(s) && MemInv(s) && CanClaim(s, c)
    ensures MemInv(Claim(s, c))
  {
    ClaimEffect(s, c);
    hide StageInv, MemInv, Claim, Takes, MovesOn;
    if ClaimSucceeds(s, c) {
      TakesMem(s, Claim(s, c), c, s.calls[c].req.phase.next);
    } else {
      MovesOnMem(s, Claim(s, c), c);
    }
  }

  lemma RegisterMem(s: State, c: nat)
    requires StageInv(s) && MemInv(s) && CanRegister(s, c)
    ensures MemInv(Register(s, c))
  {
    var t := Register(s, c);
    hide Stored, LandedAt, Program;
    assert MemInv(t);
  }

  lemma DropStaleMem(s: State, dir: Dir, c: nat)
    requires StageInv(s) && MemInv(s) && CanWriter(s, dir, c, Dropping)
    ensures MemInv(DropStale(s, dir, c))
  {
    var t := DropStale(s, dir, c);
    hide Stored, LandedAt, Program;
    assert MemInv(t);
  }

  /** No write of a program is ever stopped by the bounds check of the mapping. */
  lemma NeverOutOfBounds(s: State, dir: Dir, c: nat)
    requires StageInv(s) && MemInv(s) && CanWriteNext(s, dir, c)
    ensures NextWrite(s, dir, s.calls[c], s.PhaseOf(dir, c).k) != OutOfBounds
  {
    hide StageInv, MemInv, ProgramOf;
    if NextWrite(s, dir, s.calls[c], s.PhaseOf(dir, c).k) == OutOfBounds {
      WriteInFootprint(s, dir, c);
    }
  }

  lemma TurnAwayWriter(s: State, dir: Dir, c: nat)
    requires MemInv(s) && CanWriteNext(s, dir, c)
    requires NextWrite(s, dir, s.calls[c], s.PhaseOf(dir, c).k) == RefuseMeta
               || NextWrite(s, dir, s.calls[c], s.PhaseOf(dir, c).k) == NeedRegion
    ensures var call, w' := s.calls[c], WriterOf(WriteNext(s, dir, c).calls[c], dir);
            WriterFits(s.g, dir, call.slot, call.id, w')
            && (Underway(s.mem, s.g, dir, call.slot, call.id, WriterOf(call, dir)) ==>
                Underway(s.mem, s.g, dir, call.slot, call.id, w'))
  {
    assert CallMem(s, c);
    hide Program, InPlace, LandedAt;
  }

  /** Instead of writing, the writer gives up or goes to create an overflow region. */
  lemma TurnAway(s: State, dir: Dir, c: nat)
    requires StageInv(s) && MemInv(s) && CanWriteNext(s, dir, c)
    requires NextWrite(s, dir, s.calls[c], s.PhaseOf(dir, c).k) == RefuseMeta
               || NextWrite(s, dir, s.calls[c], s.PhaseOf(dir, c).k) == NeedRegion
    ensures MemInv(WriteNext(s, dir, c))
  {
    var t := WriteNext(s, dir, c);
    assert t.mem == s.mem;
    TurnAwayWriter(s, dir, c);
    hide WriteNext, NextWrite, ProgramOf, Program, Stored, LandedAt, WriterFits, Underway;
    assert CallMem(s, c) && CallFits(s, c);
    assert s.calls[c].stage == In(if dir == Req then Writing else Claimed);
    assert CallMem(t, c);
    assert MemInv(t);
  }

  lemma WriteNextMem(s: State, dir: Dir, c: nat)
    requires StageInv(s) && MemInv(s) && CanWriteNext(s, dir, c)
    ensures MemInv(WriteNext(s, dir, c))
  {
    NeverOutOfBounds(s, dir, c);
    hide StageInv, MemInv, WriteNext, NextWrite, ProgramOf;
    if NextWrite(s, dir, s.calls[c], s.PhaseOf(dir, c).k).Make? {
      MakeWrite(s, dir, c);
    } else {
      TurnAway(s, dir, c);
    }
  }

  lemma TryCreateMem(s: State, dir: Dir, c: nat, fault: bool)
    requires StageInv(s) && MemInv(s) && CanTryCreate(s, dir, c)
    ensures MemInv(TryCreate(s, dir, c, fault))
  {
    var t := TryCreate(s, dir, c, fault);
    hide TryCreate, Program, Stored, LandedAt, WriterFits, Underway;
    assert CallMem(s, c) && CallFits(s, c);
    assert s.calls[c].stage == In(if dir == Req then Writing else Claimed);
    TryCreateWriter(s, dir, c, fault);
    assert CallMem(t, c);
    assert MemInv(t);
  }

  lemma FillMem(s: State, dir: Dir, c: nat)
    requires StageInv(s) && MemInv(s) && CanFill(s, dir, c)
    ensures MemInv(Fill(s, dir, c))
  {
    var t := Fill(s, dir, c);
    var call := s.calls[c];
    var w := WriterOf(call, dir);
    assert CallMem(s, c);
    PrefixIgnoresMarker(s.g, dir, call.slot, call.id, w.payload, w.marker, w.marker);
    hide Program, Stored, LandedAt;
    assert MemInv(t);
  }

  lemma WholeProgramStored(mem: seq<byte>, g: Geometry, dir: Dir, i: nat, id: seq<byte>, w: Writer)
    requires w.phase.Storing? && w.phase.k == |Program(g, dir, i, id, w.payload, w.marker)|
    requires Underway(mem, g, dir, i, id, w)
    ensures StoredBy(mem, g, dir, i, id, w)
  {
    LandedAll(g, dir, i, id, w.payload, w.marker);
  }

  lemma PublishedInPlace(mem: seq<byte>, g: Geometry, dir: Dir, call: Call)
    requires WriterFits(g, Req, call.slot, call.id, call.req) && WriterFits(g, Rsp, call.slot, call.id, call.rsp)
    requires InPlace(mem, g, call.stage, call.slot, call.id, call.req, call.rsp)
    requires call.stage == In(if dir == Req then Writing else Claimed) && (dir == Req ==> call.rsp.phase == Idle)
    requires StoredBy(mem, g, dir, call.slot, call.id, WriterOf(call, dir))
    requires Complete(g, dir, call.slot, WriterOf(call, dir))
    ensures var call' := WithPhase(call, dir, Inserting).(stage := In(PublishedStatus(dir)));
            && WriterFits(g, Req, call'.slot, call'.id, call'.req)
            && WriterFits(g, Rsp, call'.slot, call'.id, call'.rsp)
            && InPlace(mem, g, call'.stage, call'.slot, call'.id, call'.req, call'.rsp)
  {
    hide MetaFits, SpillsAt, Program, Stored, LandedAt;
  }

  lemma PublishOwn(s: State, dir: Dir, c: nat)
    requires StageInv(s) && MemInv(s) && CanPublish(s, dir, c)
    ensures CallMem(Publish(s, dir, c), c)
  {
    var call := s.calls[c];
    var w := WriterOf(call, dir);
    assert CallMem(s, c) && CallFits(s, c);
    assert call.stage == In(if dir == Req then Writing else Claimed);
    assert Underway(s.mem, s.g, dir, call.slot, call.id, w);
    hide StageInv, MemInv, Program, StoredBy, Underway, Complete, InPlace, WriterFits;
    WholeProgramStored(s.mem, s.g, dir, call.slot, call.id, w);
    CompleteAtEnd(s.g, dir, call.slot, call.id, w);
    PublishedInPlace(s.mem, s.g, dir, call);
  }

  lemma PublishMem(s: State, dir: Dir, c: nat)
    requires StageInv(s) && MemInv(s) && CanPublish(s, dir, c)
    ensures MemInv(Publish(s, dir, c))
  {
    var t := Publish(s, dir, c);
    PublishOwn(s, dir, c);
    hide CanPublish, StageInv, InPlace, WriterFits;
    forall d | 0 <= d < |t.calls| ensures CallMem(t, d) {
      assert CallMem(s, d);
    }
  }

  lemma AbortMem(s: State, dir: Dir, c: nat)
    requires StageInv(s) && MemInv(s) && CanWriter(s, dir, c, Aborting)
    ensures MemInv(Abort(s, dir, c))
  {
    var t := Abort(s, dir, c);
    hide Stored, LandedAt, Program;
    assert MemInv(t);
  }

  lemma InsertHandleMem(s: State, dir: Dir, c: nat)
    requires StageInv(s) && MemInv(s) && CanWriter(s, dir, c, Inserting)
    ensures MemInv(InsertHandle(s, dir, c))
  {
    var t := InsertHandle(s, dir, c);
    assert CallMem(s, c);
    assert t.calls == s.calls[c := t.calls[c]] && t.mem == s.mem;
    hide Stored, LandedAt, Program, DropHandleOf;
    assert MemInv(t);
  }

  lemma SignalMem(s: State, dir: Dir, c: nat)
    requires StageInv(s) && MemInv(s) && CanWriter(s, dir, c, Signalling)
    ensures MemInv(Signal(s, dir, c))
  {
    var t := Signal(s, dir, c);
    hide Stored, LandedAt, Program;
    assert MemInv(t);
  }

  lemma WakeMem(s: State, dir: Dir, timeout: bool)
    requires StageInv(s) && MemInv(s) && CanWake(s, dir, timeout)
    ensures MemInv(Wake(s, dir, timeout))
  {
    var t := Wake(s, dir, timeout);
    hide Stored, LandedAt, Program;
    assert MemInv(t);
  }

  lemma ScanMem(s: State, dir: Dir)
    requires StageInv(s) && MemInv(s) && CanScan(s, dir)
    ensures MemInv(Scan(s, dir))
  {
    var t := Scan(s, dir);
    ScanEffect(s, dir);
    hide Stored, LandedAt, WriterFits, Program, Scan, StageInv;
    forall d | 0 <= d < |t.calls| ensures CallMem(t, d) {
      assert CallMem(s, d);
    }
  }

  lemma ReadMem(s: State, dir: Dir)
    requires StageInv(s) && MemInv(s) && CanRead(s, dir)
    ensures MemInv(Read(s, dir))
  {
    var t := Read(s, dir);
    hide Read, InPlace, WriterFits;
    assert MemInv(t);
  }

  lemma GivesUpMem(s: State, t: State)
    requires MemInv(s) && Shape(s) && CanFinishRead(s) && GivesUp(s, t)
    ensures MemInv(t)
  {
    hide Stored, LandedAt, Program;
    forall d | 0 <= d < |t.calls| ensures CallMem(t, d) {
      assert CallMem(s, d);
    }
  }

  lemma HandsOverMem(s: State, t: State)
    requires MemInv(s) && Shape(s) && CanFinishRead(s) && s.worker.result.Some? && HandsOver(s, t)
    requires s.calls[s.occ[s.worker.i]].rsp.phase == Idle
    ensures MemInv(t)
  {
    hide Stored, LandedAt, Program;
    forall d | 0 <= d < |t.calls| ensures CallMem(t, d) {
      assert CallMem(s, d);
    }
  }

  lemma FinishReadMem(s: State)
    requires StageInv(s) && MemInv(s) && CanFinishRead(s)
    ensures MemInv(FinishRead(s))
  {
    FinishReadEffect(s);
    hide StageInv, MemInv, FinishRead, GivesUp, HandsOver;
    if s.worker.result.None? {
      GivesUpMem(s, FinishRead(s));
    } else {
      HandsOverMem(s, FinishRead(s));
    }
  }

  lemma RespondMem(s: State, c: nat, p: Payload)
    requires StageInv(s) && MemInv(s) && CanWriter(s, Rsp, c, Asked)
    ensures MemInv(Respond(s, c, p))
  {
    var t := Respond(s, c, p);
    hide Stored, LandedAt, Program;
    assert MemInv(t);
  }

  lemma LeaveHandlerMem(s: State)
    requires StageInv(s) && MemInv(s) && CanLeaveHandler(s)
    ensures MemInv(LeaveHandler(s))
  {
    var t := LeaveHandler(s);
    hide Stored, LandedAt, Program;
    assert MemInv(t);
  }

  lemma FreeSlotMem(s: State)
    requires StageInv(s) && MemInv(s) && CanFree(s)
    ensures MemInv(FreeSlot(s))
  {
    var t := FreeSlot(s);
    hide Stored, LandedAt, Program;
    assert MemInv(t);
  }

  lemma DropRequestHandleMem(s: State)
    requires StageInv(s) && MemInv(s) && s.watcher.Freed?
    ensures MemInv(DropRequestHandle(s))
  {
    var t := DropRequestHandle(s);
    hide Stored, LandedAt, Program;
    assert MemInv(t);
  }

  lemma ResolveMem(s: State)
    requires StageInv(s) && MemInv(s) && s.watcher.Resolving?
    ensures MemInv(Resolve(s))
  {
    var t := Resolve(s);
    hide Resolve, Outcome, Stored, LandedAt, WriterFits;
    assert MemInv(t);
  }

  lemma VanishMem(s: State, name: Name)
    requires StageInv(s) && MemInv(s) && name in s.names && s.names[name] !in s.held
    ensures MemInv(Vanish(s, name))
  {
    var t := Vanish(s, name);
    hide Stored, LandedAt, Program;
    assert MemInv(t);
  }

  lemma MemStep(s: State, a: Action)
    requires StageInv(s) && MemInv(s) && Enabled(s, a)
    ensures MemInv(Step(s, a))
  {
    match a
    case DoStart(id, p) =>
      StartMem(s, id, p);
    case DoClaim(c) =>
      ClaimMem(s, c);
    case DoRegister(c) =>
      RegisterMem(s, c);
    case DoDropStale(dir, c) =>
      DropStaleMem(s, dir, c);
    case DoWriteNext(dir, c) =>
      WriteNextMem(s, dir, c);
    case DoTryCreate(dir, c, fault) =>
      TryCreateMem(s, dir, c, fault);
    case DoFill(dir, c) =>
      FillMem(s, dir, c);
    case DoPublish(dir, c) =>
      PublishMem(s, dir, c);
    case DoAbort(dir, c) =>
      AbortMem(s, dir, c);
    case DoInsertHandle(dir, c) =>
      InsertHandleMem(s, dir, c);
    case DoSignal(dir, c) =>
      SignalMem(s, dir, c);
    case DoWake(dir, timeout) =>
      WakeMem(s, dir, timeout);
    case DoScan(dir) =>
      ScanMem(s, dir);
    case DoRead(dir) =>
      ReadMem(s, dir);
    case DoFinishRead =>
      FinishReadMem(s);
    case DoRespond(c, p) =>
      RespondMem(s, c, p);
    case DoLeaveHandler =>
      LeaveHandlerMem(s);
    case DoFree =>
      FreeSlotMem(s);
    case DoDropRequestHandle =>
      DropRequestHandleMem(s);
    case DoResolve =>
      ResolveMem(s);
    case DoVanish(name) =>
      VanishMem(s, name);
  }
}
