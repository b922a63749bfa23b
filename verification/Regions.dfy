/** Overflow regions: whoever follows a slot's marker finds the region its own writer filled, or
    nothing. */
module Regions {
  import opened Bytes
  import opened Layout
  import opened Slots
  import opened Protocol
  import opened Stages
  import opened Memory

  ghost predicate NamesOk(s: State) {
    forall name :: name in s.names ==> s.names[name] < |s.regions| && s.regions[s.names[name]].name == name
  }

  ghost predicate HandlesOk(s: State) {
    forall key :: key in s.handles ==>
      s.handles[key] < |s.regions| && s.regions[s.handles[key]].name.dir == key.0
      && s.regions[s.handles[key]].name.slot == key.1
  }

  /** A writer's region carries its slot and generation in its name and, once filled, its body. */
  predicate RegionOk(regions: seq<Region>, dir: Dir, c: nat, i: nat, w: Writer) {
    w.region.Some? ==>
      var r := w.region.value;
      && r < |regions| && regions[r].maker == MadeBy(dir, c) && w.marker > 0
      && regions[r].name == Name(dir, i, w.marker - 1)
      && (w.phase != Filling ==> regions[r].data == FilledPages(w.payload.body))
  }

  /** While its request is in its slot, the name leads to this region or nowhere. */
  predicate LeadsTo(names: map<Name, nat>, dir: Dir, i: nat, w: Writer) {
    w.region.Some? && w.marker > 0 && Name(dir, i, w.marker - 1) in names ==>
      names[Name(dir, i, w.marker - 1)] == w.region.value
  }

  predicate CallRegions(s: State, c: nat)
    requires c < |s.calls|
  {
    var call := s.calls[c];
    && RegionOk(s.regions, Req, c, call.slot, call.req)
    && RegionOk(s.regions, Rsp, c, call.slot, call.rsp)
    && (call.stage.In? ==> LeadsTo(s.names, Req, call.slot, call.req) && LeadsTo(s.names, Rsp, call.slot, call.rsp))
  }

  ghost predicate CallsRegions(s: State) {
    forall c {:trigger s.calls[c]} {:trigger CallRegions(s, c)} :: 0 <= c < |s.calls| ==> CallRegions(s, c)
  }

  ghost predicate RegionInv(s: State) {
    NamesOk(s) && HandlesOk(s) && CallsRegions(s)
  }

  // ---- Steps --------------------------------------------------------------------------------------

  /** A move of one request that leaves regions, names and handles alone. */
  lemma CallMovesOn(s: State, t: State, c: nat)
    requires RegionInv(s) && c < |s.calls| == |t.calls| && t.calls == s.calls[c := t.calls[c]]
    requires t.regions == s.regions && t.names == s.names && t.handles == s.handles
    requires CallRegions(t, c)
    ensures RegionInv(t)
  {
    forall d | 0 <= d < |t.calls| ensures CallRegions(t, d) {
      assert CallRegions(s, d);
    }
  }

  /** A new region under an absent name of the writer's own slot disturbs no other request. */
  lemma RegionAdded(s: State, t: State, c: nat, region: Region)
    requires RegionInv(s) && c < |s.calls| == |t.calls| && t.calls == s.calls[c := t.calls[c]] && t.handles == s.handles
    requires t.regions == s.regions + [region] && region.name !in s.names
    requires t.names == s.names[region.name := |s.regions|]
    requires forall d :: 0 <= d < |s.calls| && d != c && s.calls[d].stage.In? ==> s.calls[d].slot != region.name.slot
    requires CallRegions(t, c)
    ensures RegionInv(t)
  {
    assert forall r :: 0 <= r < |s.regions| ==> t.regions[r] == s.regions[r];
    forall d | 0 <= d < |t.calls| ensures CallRegions(t, d) {
      assert CallRegions(s, d);
    }
  }

  /** The writer's own new region is recorded, and its other direction is undisturbed. */
  lemma RegionOwn(s: State, dir: Dir, c: nat)
    requires MemInv(s) && RegionInv(s) && CanTryCreate(s, dir, c)
    requires Name(dir, s.calls[c].slot, s.PhaseOf(dir, c).gen) !in s.names
    ensures CallRegions(TryCreate(s, dir, c, false), c)
  {
    assert CallRegions(s, c);
  }

  lemma NewRegion(s: State, dir: Dir, c: nat)
    requires StageInv(s) && MemInv(s) && RegionInv(s) && CanTryCreate(s, dir, c)
    requires Name(dir, s.calls[c].slot, s.PhaseOf(dir, c).gen) !in s.names
    ensures RegionInv(TryCreate(s, dir, c, false))
  {
    var t := TryCreate(s, dir, c, false);
    var region := Region(Name(dir, s.calls[c].slot, s.PhaseOf(dir, c).gen),
                         Zeros(OverflowSize(|WriterOf(s.calls[c], dir).payload.body|)), MadeBy(dir, c));
    assert CallFits(s, c) && s.calls[c].stage.In?;
    assert t.regions == s.regions + [region] && t.names == s.names[region.name := |s.regions|];
    RegionOwn(s, dir, c);
    hide TryCreate, CallRegions, RegionInv, MemInv, OverflowSize, Zeros;
    forall d | 0 <= d < |s.calls| && d != c && s.calls[d].stage.In? ensures s.calls[d].slot != region.name.slot {
      assert CallFits(s, d);
    }
    RegionAdded(s, t, c, region);
  }

  /** Filling a region changes the data of no other writer's region. */
  lemma FillOwn(s: State, dir: Dir, c: nat)
    requires RegionInv(s) && CanFill(s, dir, c)
    ensures RegionInv(Fill(s, dir, c))
  {
    var t := Fill(s, dir, c);
    assert CallRegions(s, c);
    forall d | 0 <= d < |t.calls| ensures CallRegions(t, d) {
      assert CallRegions(s, d);
    }
  }

  lemma StartRegions(s: State, id: seq<byte>, p: Payload)
    requires StageInv(s) && MemInv(s) && RegionInv(s) && FreshId(s, id)
    ensures RegionInv(Start(s, id, p))
  {
    var t := Start(s, id, p);
    assert RegionInv(t);
  }

  lemma ClaimRegions(s: State, c: nat)
    requires StageInv(s) && MemInv(s) && RegionInv(s) && CanClaim(s, c)
    ensures RegionInv(Claim(s, c))
  {
    var t := Claim(s, c);
    ClaimEffect(s, c);
    assert CallMem(s, c);
    assert s.calls[c].req.region.None? && s.calls[c].rsp.region.None?;
    hide Claim, StageInv, MemInv, RegionInv;
    CallMovesOn(s, t, c);
  }

  lemma RegisterRegions(s: State, c: nat)
    requires StageInv(s) && MemInv(s) && RegionInv(s) && CanRegister(s, c)
    ensures RegionInv(Register(s, c))
  {
    var t := Register(s, c);
    assert RegionInv(t);
  }

  lemma DropStaleRegions(s: State, dir: Dir, c: nat)
    requires StageInv(s) && MemInv(s) && RegionInv(s) && CanWriter(s, dir, c, Dropping)
    ensures RegionInv(DropStale(s, dir, c))
  {
    var t := DropStale(s, dir, c);
    assert RegionInv(t);
  }

  lemma CreateMisses(s: State, dir: Dir, c: nat, fault: bool)
    requires RegionInv(s) && CanTryCreate(s, dir, c)
    requires (fault || Name(dir, s.calls[c].slot, s.PhaseOf(dir, c).gen) in s.names)
    requires WriterOf(s.calls[c], dir).region.None?
    ensures RegionInv(TryCreate(s, dir, c, fault))
  {
    var t := TryCreate(s, dir, c, fault);
    assert t.regions == s.regions && t.names == s.names && t.handles == s.handles;
    assert WriterOf(t.calls[c], dir).region.None?;
    assert CallRegions(s, c);
    hide TryCreate, RegionInv;
    CallMovesOn(s, t, c);
  }

  lemma NoRegionYet(s: State, dir: Dir, c: nat)
    requires MemInv(s) && CanTryCreate(s, dir, c)
    ensures WriterOf(s.calls[c], dir).region.None?
  {
    assert CallMem(s, c);
    hide MemInv, Program, InPlace;
  }

  lemma TryCreateRegions(s: State, dir: Dir, c: nat, fault: bool)
    requires StageInv(s) && MemInv(s) && RegionInv(s) && CanTryCreate(s, dir, c)
    ensures RegionInv(TryCreate(s, dir, c, fault))
  {
    NoRegionYet(s, dir, c);
    hide StageInv, MemInv, RegionInv, TryCreate;
    if !fault && Name(dir, s.calls[c].slot, s.PhaseOf(dir, c).gen) !in s.names {
      NewRegion(s, dir, c);
      assert fault == false;
    } else {
      CreateMisses(s, dir, c, fault);
    }
  }

  lemma FillRegions(s: State, dir: Dir, c: nat)
    requires StageInv(s) && MemInv(s) && RegionInv(s) && CanFill(s, dir, c)
    ensures RegionInv(Fill(s, dir, c))
  {
    var t := Fill(s, dir, c);
    FillOwn(s, dir, c);
    assert RegionInv(t);
  }

  /** A writer that is not filling a region moves on. */
  lemma WriterMovesOn(s: State, t: State, dir: Dir, c: nat, phase: Phase, stage: Stage)
    requires RegionInv(s) && c < |s.calls|
    requires t.calls == s.calls[c := WithPhase(s.calls[c], dir, phase).(stage := stage)]
    requires t.regions == s.regions && t.names == s.names && t.handles == s.handles
    requires s.PhaseOf(dir, c) != Filling && phase != Filling && (stage.In? ==> s.calls[c].stage.In?)
    ensures RegionInv(t)
  {
    assert CallRegions(s, c);
    hide RegionInv;
    CallMovesOn(s, t, c);
  }

  lemma WriteNextRegions(s: State, dir: Dir, c: nat)
    requires StageInv(s) && MemInv(s) && RegionInv(s) && CanWriteNext(s, dir, c)
    ensures RegionInv(WriteNext(s, dir, c))
  {
    var t := WriteNext(s, dir, c);
    hide WriteNext, ProgramOf, StageInv, MemInv, RegionInv;
    WriterMovesOn(s, t, dir, c, t.PhaseOf(dir, c), s.calls[c].stage);
  }

  lemma PublishRegions(s: State, dir: Dir, c: nat)
    requires StageInv(s) && MemInv(s) && RegionInv(s) && CanPublish(s, dir, c)
    ensures RegionInv(Publish(s, dir, c))
  {
    hide ProgramOf, MemInv;
    var t := Publish(s, dir, c);
    assert CallFits(s, c) && s.calls[c].stage.In?;
    hide StageInv, RegionInv;
    WriterMovesOn(s, t, dir, c, Inserting, In(PublishedStatus(dir)));
  }

  lemma AbortRegions(s: State, dir: Dir, c: nat)
    requires StageInv(s) && MemInv(s) && RegionInv(s) && CanWriter(s, dir, c, Aborting)
    ensures RegionInv(Abort(s, dir, c))
  {
    var t := Abort(s, dir, c);
    assert RegionInv(t);
  }

  lemma InsertHandleRegions(s: State, dir: Dir, c: nat)
    requires StageInv(s) && MemInv(s) && RegionInv(s) && CanWriter(s, dir, c, Inserting)
    ensures RegionInv(InsertHandle(s, dir, c))
  {
    var t := InsertHandle(s, dir, c);
    hide InsertHandle, StageInv, MemInv;
    InsertedHandlesOk(s, t, dir, c);
    var u := t.(handles := s.handles);
    hide RegionInv, HandlesOk;
    WriterMovesOn(s, u, dir, c, if dir == Req then Registering else Signalling, s.calls[c].stage);
    InsertedHandles(u, t);
  }

  lemma InsertedHandlesOk(s: State, t: State, dir: Dir, c: nat)
    requires RegionInv(s) && CanWriter(s, dir, c, Inserting) && t.regions == s.regions
    requires forall key :: key in t.handles ==>
               if key == (dir, s.calls[c].slot) && WriterOf(s.calls[c], dir).region.Some?
               then t.handles[key] == WriterOf(s.calls[c], dir).region.value
               else key in s.handles && t.handles[key] == s.handles[key]
    ensures HandlesOk(t)
  {
    assert CallRegions(s, c);
  }

  lemma InsertedHandles(u: State, t: State)
    requires RegionInv(u) && HandlesOk(t) && t == u.(handles := t.handles, held := t.held)
    ensures RegionInv(t)
  {
  }

  lemma SignalRegions(s: State, dir: Dir, c: nat)
    requires StageInv(s) && MemInv(s) && RegionInv(s) && CanWriter(s, dir, c, Signalling)
    ensures RegionInv(Signal(s, dir, c))
  {
    var t := Signal(s, dir, c);
    assert RegionInv(t);
  }

  lemma WakeRegions(s: State, dir: Dir, timeout: bool)
    requires StageInv(s) && MemInv(s) && RegionInv(s) && CanWake(s, dir, timeout)
    ensures RegionInv(Wake(s, dir, timeout))
  {
    var t := Wake(s, dir, timeout);
    assert RegionInv(t);
  }

  lemma ScanRegions(s: State, dir: Dir)
    requires StageInv(s) && MemInv(s) && RegionInv(s) && CanScan(s, dir)
    ensures RegionInv(Scan(s, dir))
  {
    var t := Scan(s, dir);
    ScanEffect(s, dir);
    hide Scan, StageInv, MemInv;
    if ScanTakes(s, dir) {
      var c := s.occ[ReaderOf(s, dir).i];
      assert CallRegions(s, c);
      hide RegionInv;
      CallMovesOn(s, t, c);
    }
  }

  lemma ReadRegions(s: State, dir: Dir)
    requires StageInv(s) && MemInv(s) && RegionInv(s) && CanRead(s, dir)
    ensures RegionInv(Read(s, dir))
  {
    var t := Read(s, dir);
    hide Read;
    assert RegionInv(t);
  }

  lemma FinishReadRegions(s: State)
    requires StageInv(s) && MemInv(s) && RegionInv(s) && CanFinishRead(s)
    ensures RegionInv(FinishRead(s))
  {
    var t := FinishRead(s);
    var c := s.occ[s.worker.i];
    FinishReadEffect(s);
    assert CallRegions(s, c) && CallMem(s, c);
    assert s.calls[c].rsp.region.None?;
    hide FinishRead, StageInv, MemInv, RegionInv;
    CallMovesOn(s, t, c);
  }

  lemma RespondRegions(s: State, c: nat, p: Payload)
    requires StageInv(s) && MemInv(s) && RegionInv(s) && CanWriter(s, Rsp, c, Asked)
    ensures RegionInv(Respond(s, c, p))
  {
    var t := Respond(s, c, p);
    assert CallMem(s, c);
    hide Program, InPlace;
    assert RegionInv(t);
  }

  lemma LeaveHandlerRegions(s: State)
    requires StageInv(s) && MemInv(s) && RegionInv(s) && CanLeaveHandler(s)
    ensures RegionInv(LeaveHandler(s))
  {
    var t := LeaveHandler(s);
    assert RegionInv(t);
  }

  lemma FreeSlotRegions(s: State)
    requires StageInv(s) && MemInv(s) && RegionInv(s) && CanFree(s)
    ensures RegionInv(FreeSlot(s))
  {
    var t := FreeSlot(s);
    var c := s.occ[s.watcher.i];
    FreeEffect(s);
    assert CallRegions(s, c);
    hide FreeSlot, StageInv, MemInv, RegionInv;
    CallMovesOn(s, t, c);
  }

  lemma DropRequestHandleRegions(s: State)
    requires StageInv(s) && MemInv(s) && RegionInv(s) && s.watcher.Freed?
    ensures RegionInv(DropRequestHandle(s))
  {
    var t := DropRequestHandle(s);
    assert RegionInv(t);
  }

  lemma ResolveRegions(s: State)
    requires StageInv(s) && MemInv(s) && RegionInv(s) && s.watcher.Resolving?
    ensures RegionInv(Resolve(s))
  {
    var t := Resolve(s);
    hide Resolve, Outcome;
    assert RegionInv(t);
  }

  lemma VanishRegions(s: State, name: Name)
    requires StageInv(s) && MemInv(s) && RegionInv(s) && name in s.names && s.names[name] !in s.held
    ensures RegionInv(Vanish(s, name))
  {
    var t := Vanish(s, name);
    assert RegionInv(t);
  }

  lemma RegionsStep(s: State, a: Action)
    requires StageInv(s) && MemInv(s) && RegionInv(s) && Enabled(s, a)
    ensures RegionInv(Step(s, a))
  {
    match a
    case DoStart(id, p) =>
      StartRegions(s, id, p);
    case DoClaim(c) =>
      ClaimRegions(s, c);
    case DoRegister(c) =>
      RegisterRegions(s, c);
    case DoDropStale(dir, c) =>
      DropStaleRegions(s, dir, c);
    case DoWriteNext(dir, c) =>
      WriteNextRegions(s, dir, c);
    case DoTryCreate(dir, c, fault) =>
      TryCreateRegions(s, dir, c, fault);
    case DoFill(dir, c) =>
      FillRegions(s, dir, c);
    case DoPublish(dir, c) =>
      PublishRegions(s, dir, c);
    case DoAbort(dir, c) =>
      AbortRegions(s, dir, c);
    case DoInsertHandle(dir, c) =>
      InsertHandleRegions(s, dir, c);
    case DoSignal(dir, c) =>
      SignalRegions(s, dir, c);
    case DoWake(dir, timeout) =>
      WakeRegions(s, dir, timeout);
    case DoScan(dir) =>
      ScanRegions(s, dir);
    case DoRead(dir) =>
      ReadRegions(s, dir);
    case DoFinishRead =>
      FinishReadRegions(s);
    case DoRespond(c, p) =>
      RespondRegions(s, c, p);
    case DoLeaveHandler =>
      LeaveHandlerRegions(s);
    case DoFree =>
      FreeSlotRegions(s);
    case DoDropRequestHandle =>
      DropRequestHandleRegions(s);
    case DoResolve =>
      ResolveRegions(s);
    case DoVanish(name) =>
      VanishRegions(s, name);
  }
}
