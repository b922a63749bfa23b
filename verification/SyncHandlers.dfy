/** When handlers answer on the receive thread, a spilled response is still there when the watcher
    comes for it: its handle cannot be dropped and its name cannot go away while its slot is Done. */
module SyncHandlers {
  import opened Bytes
  import opened Layout
  import opened Slots
  import opened Protocol
  import opened Stages
  import opened Memory
  import opened Regions
  import opened Readers

  predicate Responding(phase: Phase) {
    phase == Asked || Preparing(phase) || phase == Inserting || phase == Signalling
  }

  predicate HandedOver(phase: Phase) {
    phase == Signalling || phase == Returned
  }

  /** The region's creating handle is alive, in the writer's own hands or in the handle map, and so
      its name stands. */
  predicate Held(handles: map<(Dir, nat), nat>, held: set<nat>, names: map<Name, nat>, stage: Stage, i: nat,
                 rsp: Writer) {
    (stage == In(Claimed) || stage == In(Done)) && rsp.region.Some? ==>
      var r := rsp.region.value;
      && r in held && rsp.marker > 0 && Name(Rsp, i, rsp.marker - 1) in names
      && (if HandedOver(rsp.phase)
          then (Rsp, i) in handles && handles[(Rsp, i)] == r
          else (Rsp, i) in handles ==> handles[(Rsp, i)] != r)
  }

  /** Only the request whose handler is running on the receive thread is being answered. */
  predicate OneAtATime(worker: Reader, i: nat, c: nat, phase: Phase) {
    Responding(phase) ==> worker == Handling(i, c)
  }

  predicate CallSync(s: State, c: nat)
    requires c < |s.calls|
  {
    var call := s.calls[c];
    && OneAtATime(s.worker, call.slot, c, call.rsp.phase)
    && Held(s.handles, s.held, s.names, call.stage, call.slot, call.rsp)
    && call.stage != After(ResponseUnread)
  }

  ghost predicate CallsSync(s: State) {
    forall c {:trigger s.calls[c]} {:trigger CallSync(s, c)} :: 0 <= c < |s.calls| ==> CallSync(s, c)
  }

  predicate HandlerOwnsSlot(s: State)
    requires Shape(s)
  {
    s.worker.Handling? && s.worker.i < s.g.numSlots
    && (s.status[s.worker.i] == Claimed || s.status[s.worker.i] == Done) ==>
      s.occ[s.worker.i] == s.worker.c
  }

  predicate WatcherHasResult(s: State) {
    s.watcher.Got? || s.watcher.Freed? || s.watcher.Resolving? ==> s.watcher.result.Some?
  }

  ghost predicate SyncInv(s: State) {
    Shape(s) && (s.sync ==> CallsSync(s) && HandlerOwnsSlot(s) && WatcherHasResult(s))
  }

  // ---- Steps --------------------------------------------------------------------------------------

  /** A move of one request that leaves handles, names and the worker alone. */
  lemma CallSteps(s: State, t: State, c: nat)
    requires SyncInv(s) && s.sync && Alike(s, t) && c < |s.calls| == |t.calls| && t.calls == s.calls[c := t.calls[c]]
    requires t.handles == s.handles && t.held == s.held && t.names == s.names && t.worker == s.worker
    requires CallSync(t, c) && HandlerOwnsSlot(t) && WatcherHasResult(t)
    ensures SyncInv(t)
  {
    forall d | 0 <= d < |t.calls| ensures CallSync(t, d) {
      assert CallSync(s, d);
    }
  }

  lemma HeldKept(handles: map<(Dir, nat), nat>, held: set<nat>, names: map<Name, nat>, stage: Stage, stage': Stage,
                 i: nat, rsp: Writer, rsp': Writer)
    requires Held(handles, held, names, stage, i, rsp)
    requires stage' == stage || (stage' == In(Done) && stage == In(Claimed)) || !stage'.In?
    requires rsp'.region == rsp.region && rsp'.marker == rsp.marker && HandedOver(rsp'.phase) == HandedOver(rsp.phase)
    ensures Held(handles, held, names, stage', i, rsp')
  {
  }

  /** A request being answered on the receive thread is still the occupant of its slot until then. */
  lemma HandlerInSlot(s: State)
    requires StageInv(s) && SyncInv(s) && s.sync && s.worker.Handling?
    ensures forall c :: 0 <= c < |s.calls| && s.calls[c].slot == s.worker.i ==>
              s.calls[c].stage == In(Claimed) || s.calls[c].stage == In(Done) ==>
                c == s.worker.c
  {
    forall c | 0 <= c < |s.calls| && s.calls[c].slot == s.worker.i
      && (s.calls[c].stage == In(Claimed) || s.calls[c].stage == In(Done))
      ensures c == s.worker.c
    {
      assert CallFits(s, c);
    }
  }

  /** Dropping the handle under another key leaves a held response held. */
  lemma DropOther(s: State, dir: Dir, i: nat, c: nat)
    requires NamesOk(s) && HandlesOk(s) && CallsRegions(s) && c < |s.calls| && CallSync(s, c)
    requires (dir, i) != (Rsp, s.calls[c].slot)
    ensures CallSync(DropHandleOf(s, dir, i), c)
  {
    assert CallRegions(s, c);
  }

  lemma DropStaleHeld(s: State, dir: Dir, c: nat)
    requires StageInv(s) && MemInv(s) && RegionInv(s) && SyncInv(s) && s.sync && CanWriter(s, dir, c, Dropping)
    ensures SyncInv(DropStale(s, dir, c))
  {
    var t := DropStale(s, dir, c);
    var i := s.calls[c].slot;
    assert CallFits(s, c) && CallMem(s, c) && CallSync(s, c);
    hide Program, InPlace;
    assert WriterOf(s.calls[c], dir).region.None?;
    forall d | 0 <= d < |t.calls| ensures CallSync(t, d) {
      assert CallSync(s, d) && CallFits(s, d);
      if d != c || dir == Req {
        if s.calls[d].slot == i && dir == Rsp && (s.calls[d].stage == In(Claimed) || s.calls[d].stage == In(Done)) {
          assert false;
        }
        hide StageInv, MemInv, WriterFits;
        if (dir, i) != (Rsp, s.calls[d].slot) { DropOther(s, dir, i, d); }
      }
    }
    hide StageInv, MemInv, RegionInv, DropHandleOf;
  }

  lemma DropRequestHeld(s: State)
    requires StageInv(s) && RegionInv(s) && SyncInv(s) && s.sync && s.watcher.Freed?
    ensures SyncInv(DropRequestHandle(s))
  {
    var t := DropRequestHandle(s);
    hide StageInv;
    forall d | 0 <= d < |t.calls| ensures CallSync(t, d) {
      assert CallSync(s, d);
      DropOther(s, Req, s.watcher.i, d);
    }
    hide RegionInv, DropHandleOf;
  }

  lemma InsertOne(s: State, dir: Dir, c: nat, d: nat)
    requires StageInv(s) && MemInv(s) && RegionInv(s) && SyncInv(s) && s.sync && CanWriter(s, dir, c, Inserting)
    requires d < |s.calls|
    ensures |InsertHandle(s, dir, c).calls| == |s.calls| && CallSync(InsertHandle(s, dir, c), d)
  {
    if d == c && dir == Rsp {
      InsertOwn(s, c);
    } else if dir == Req || s.calls[d].slot != s.calls[c].slot {
      InsertElsewhere(s, dir, c, d);
    } else {
      InsertGone(s, c, d);
    }
    hide *;
  }

  /** Another slot's or direction's handle. */
  lemma InsertElsewhere(s: State, dir: Dir, c: nat, d: nat)
    requires RegionInv(s) && SyncInv(s) && s.sync && CanWriter(s, dir, c, Inserting) && d < |s.calls|
    requires dir == Req || s.calls[d].slot != s.calls[c].slot
    ensures CallSync(InsertHandle(s, dir, c), d)
  {
    assert CallSync(s, c) && CallSync(s, d);
    hide OneAtATime, SyncInv;
    DropOther(s, dir, s.calls[c].slot, d);
  }

  /** A request that has left the slot. */
  lemma InsertGone(s: State, c: nat, d: nat)
    requires StageInv(s) && MemInv(s) && SyncInv(s) && s.sync && CanWriter(s, Rsp, c, Inserting)
    requires d < |s.calls| && d != c && s.calls[d].slot == s.calls[c].slot
    ensures CallSync(InsertHandle(s, Rsp, c), d)
  {
    assert CallFits(s, c) && CallSync(s, c) && CallSync(s, d);
    HandlerInSlot(s);
    hide StageInv, MemInv, SyncInv, InsertHandle;
    assert !(s.calls[d].stage == In(Claimed) || s.calls[d].stage == In(Done));
  }

  lemma InsertHeld(s: State, dir: Dir, c: nat)
    requires StageInv(s) && MemInv(s) && RegionInv(s) && SyncInv(s) && s.sync && CanWriter(s, dir, c, Inserting)
    ensures SyncInv(InsertHandle(s, dir, c))
  {
    var t := InsertHandle(s, dir, c);
    forall d | 0 <= d < |t.calls| ensures CallSync(t, d) {
      InsertOne(s, dir, c, d);
    }
    hide StageInv, MemInv, RegionInv, InsertHandle, CallSync;
  }

  lemma InsertOwn(s: State, c: nat)
    requires StageInv(s) && SyncInv(s) && s.sync && CanWriter(s, Rsp, c, Inserting)
    ensures CallSync(InsertHandle(s, Rsp, c), c)
  {
    assert CallFits(s, c) && CallSync(s, c);
    hide StageInv, SyncInv;
  }

  lemma HeldGrows(handles: map<(Dir, nat), nat>, held: set<nat>, names: map<Name, nat>, held': set<nat>,
                  names': map<Name, nat>, stage: Stage, i: nat, rsp: Writer)
    requires Held(handles, held, names, stage, i, rsp)
    requires held <= held' && forall name :: name in names ==> name in names'
    ensures Held(handles, held', names', stage, i, rsp)
  {
  }

  lemma TryCreateOwn(s: State, c: nat, fault: bool)
    requires HandlesOk(s) && s.sync && CanTryCreate(s, Rsp, c) && CallSync(s, c) && s.calls[c].rsp.region.None?
    ensures CallSync(TryCreate(s, Rsp, c, fault), c)
  {
  }

  lemma TryCreateHeld(s: State, dir: Dir, c: nat, fault: bool)
    requires StageInv(s) && MemInv(s) && RegionInv(s) && SyncInv(s) && s.sync && CanTryCreate(s, dir, c)
    ensures SyncInv(TryCreate(s, dir, c, fault))
  {
    var t := TryCreate(s, dir, c, fault);
    assert s.held <= t.held && forall name :: name in s.names ==> name in t.names;
    assert CallSync(s, c) && CallMem(s, c);
    hide TryCreate, Program, InPlace, Held;
    if dir == Rsp { TryCreateOwn(s, c, fault); }
    hide StageInv, MemInv, RegionInv, WriterFits, OneAtATime;
    forall d | 0 <= d < |t.calls| ensures CallSync(t, d) {
      assert CallSync(s, d);
      if d != c || dir == Req {
        HeldGrows(s.handles, s.held, s.names, t.held, t.names, s.calls[d].stage, s.calls[d].slot, s.calls[d].rsp);
      }
    }
  }

  lemma ScanClaims(s: State, i: nat)
    requires StageInv(s) && MemInv(s) && SyncInv(s) && s.worker == Scanning(i) && i < s.g.numSlots
    requires s.status[i] == Ready
    ensures SyncInv(Scan(s, Req))
  {
    var t := Scan(s, Req);
    var c := s.occ[i];
    assert SlotFits(s, i) && CallFits(s, c) && CallMem(s, c);
    hide Program, InPlace;
    assert s.calls[c].rsp.region.None? && t.calls == s.calls[c := s.calls[c].(stage := In(Claimed))]
           && t.worker == AtHead(i);
    hide Scan, StageInv, MemInv, WriterFits;
    if s.sync {
      forall d | 0 <= d < |t.calls| ensures CallSync(t, d) {
        assert CallSync(s, d);
      }
    }
  }

  /** A handler starts on the receive thread. */
  lemma HandsOverSync(s: State, t: State)
    requires SyncInv(s) && s.sync && CanFinishRead(s) && s.worker.result.Some? && HandsOver(s, t)
    requires s.calls[s.occ[s.worker.i]].slot == s.worker.i && s.calls[s.occ[s.worker.i]].stage == In(Claimed)
    requires s.calls[s.occ[s.worker.i]].rsp.phase == Idle
    ensures SyncInv(t)
  {
    var c := s.occ[s.worker.i];
    forall d | 0 <= d < |t.calls| ensures CallSync(t, d) {
      assert CallSync(s, d);
    }
    hide OneAtATime, Held;
  }

  lemma GivesUpSync(s: State, t: State)
    requires SyncInv(s) && s.sync && CanFinishRead(s) && GivesUp(s, t)
    requires s.calls[s.occ[s.worker.i]].stage == In(Claimed) && s.calls[s.occ[s.worker.i]].rsp.phase == Idle
    ensures SyncInv(t)
  {
    forall d | 0 <= d < |t.calls| ensures CallSync(t, d) {
      assert CallSync(s, d);
    }
    hide OneAtATime, Held;
  }

  lemma HandlerStarts(s: State)
    requires StageInv(s) && SyncInv(s) && s.sync && CanFinishRead(s)
    ensures SyncInv(FinishRead(s))
  {
    FinishReadEffect(s);
    hide StageInv, SyncInv, FinishRead, GivesUp, HandsOver;
    if s.worker.result.None? {
      GivesUpSync(s, FinishRead(s));
    } else {
      HandsOverSync(s, FinishRead(s));
    }
  }

  lemma ReadResultOk(s: State)
    requires StageInv(s) && MemInv(s) && RegionInv(s) && ReaderInv(s) && SyncInv(s) && s.sync && CanRead(s, Rsp)
    ensures s.watcher.AtHead? || s.watcher.AtMeta? || s.watcher.AtBody? || s.watcher.Copying?
    ensures ReaderOf(Read(s, Rsp), Rsp).Got? ==> ReaderOf(Read(s, Rsp), Rsp).result.Some?
  {
    ReadFailsIff(s, Rsp);
    OccupantReading(s);
    assert CallSync(s, s.occ[s.watcher.i]);
    hide StageInv, MemInv, RegionInv, ReaderInv, SyncInv, OneAtATime, Read;
  }

  lemma StartSync(s: State, id: seq<byte>, p: Payload)
    requires StageInv(s) && MemInv(s) && RegionInv(s) && ReaderInv(s) && SyncInv(s) && FreshId(s, id)
    ensures SyncInv(Start(s, id, p))
  {
    var t := Start(s, id, p);
    hide StageInv, MemInv, RegionInv, ReaderInv;
    assert SyncInv(t);
  }

  lemma ClaimResponse(s: State, c: nat)
    requires StageInv(s) && MemInv(s) && SyncInv(s) && CanClaim(s, c)
    ensures s.calls[c].rsp.phase == Idle && s.calls[c].rsp.region.None?
    ensures var t := Claim(s, c); t.calls[c].rsp == s.calls[c].rsp && t.calls[c].stage != After(ResponseUnread)
    ensures s.sync ==> HandlerOwnsSlot(Claim(s, c))
  {
    hide Program, InPlace;
    assert CallFits(s, c) && CallMem(s, c);
  }

  lemma ClaimSync(s: State, c: nat)
    requires StageInv(s) && MemInv(s) && RegionInv(s) && ReaderInv(s) && SyncInv(s) && CanClaim(s, c)
    ensures SyncInv(Claim(s, c))
  {
    var t := Claim(s, c);
    hide Claim, StageInv, MemInv, RegionInv, ReaderInv;
    ClaimResponse(s, c);
    if s.sync {
      assert CallSync(s, c);
      CallSteps(s, t, c);
    }
    assert SyncInv(t);
  }

  lemma RegisterSync(s: State, c: nat)
    requires StageInv(s) && MemInv(s) && RegionInv(s) && ReaderInv(s) && SyncInv(s) && CanRegister(s, c)
    ensures SyncInv(Register(s, c))
  {
    var t := Register(s, c);
    assert CallFits(s, c);
    hide StageInv, MemInv, RegionInv, ReaderInv;
    if s.sync {
      assert CallSync(s, c);
      hide Held, OneAtATime, PhasesFit, CallFits;
      CallSteps(s, t, c);
    }
    assert SyncInv(t);
  }

  lemma DropStaleSync(s: State, dir: Dir, c: nat)
    requires StageInv(s) && MemInv(s) && RegionInv(s) && ReaderInv(s) && SyncInv(s) && CanWriter(s, dir, c, Dropping)
    ensures SyncInv(DropStale(s, dir, c))
  {
    var t := DropStale(s, dir, c);
    if s.sync { DropStaleHeld(s, dir, c); }
    assert SyncInv(t);
  }

  lemma WriteNextSync(s: State, dir: Dir, c: nat)
    requires StageInv(s) && MemInv(s) && RegionInv(s) && ReaderInv(s) && SyncInv(s) && CanWriteNext(s, dir, c)
    ensures SyncInv(WriteNext(s, dir, c))
  {
    var t := WriteNext(s, dir, c);
    assert CallFits(s, c);
    hide StageInv, MemInv, RegionInv, ReaderInv, WriteNext, ProgramOf, NextWrite;
    if s.sync {
      assert CallSync(s, c);
      if dir == Rsp {
        HeldKept(s.handles, s.held, s.names, s.calls[c].stage, t.calls[c].stage, s.calls[c].slot, s.calls[c].rsp,
                 t.calls[c].rsp);
      }
      hide Held, OneAtATime, PhasesFit, CallFits;
      CallSteps(s, t, c);
    }
    assert SyncInv(t);
  }

  lemma TryCreateSync(s: State, dir: Dir, c: nat, fault: bool)
    requires StageInv(s) && MemInv(s) && RegionInv(s) && ReaderInv(s) && SyncInv(s) && CanTryCreate(s, dir, c)
    ensures SyncInv(TryCreate(s, dir, c, fault))
  {
    var t := TryCreate(s, dir, c, fault);
    if s.sync { TryCreateHeld(s, dir, c, fault); }
    assert SyncInv(t);
  }

  lemma FillSync(s: State, dir: Dir, c: nat)
    requires StageInv(s) && MemInv(s) && RegionInv(s) && ReaderInv(s) && SyncInv(s) && CanFill(s, dir, c)
    ensures SyncInv(Fill(s, dir, c))
  {
    var t := Fill(s, dir, c);
    assert CallFits(s, c);
    hide StageInv, MemInv, RegionInv, ReaderInv;
    if s.sync {
      assert CallSync(s, c);
      if dir == Rsp {
        HeldKept(s.handles, s.held, s.names, s.calls[c].stage, t.calls[c].stage, s.calls[c].slot, s.calls[c].rsp,
                 t.calls[c].rsp);
      }
      hide Held, OneAtATime, PhasesFit, CallFits;
      CallSteps(s, t, c);
    }
    assert SyncInv(t);
  }

  lemma PublishSync(s: State, dir: Dir, c: nat)
    requires StageInv(s) && MemInv(s) && RegionInv(s) && ReaderInv(s) && SyncInv(s) && CanPublish(s, dir, c)
    ensures SyncInv(Publish(s, dir, c))
  {
    var t := Publish(s, dir, c);
    assert CallFits(s, c);
    hide ProgramOf;
    if s.sync && s.worker.Handling? { HandlerInSlot(s); }
    hide StageInv, MemInv, RegionInv, ReaderInv;
    if s.sync {
      assert CallSync(s, c);
      if dir == Rsp {
        HeldKept(s.handles, s.held, s.names, s.calls[c].stage, t.calls[c].stage, s.calls[c].slot, s.calls[c].rsp,
                 t.calls[c].rsp);
      }
      hide Held, OneAtATime, PhasesFit, CallFits;
      CallSteps(s, t, c);
    }
    assert SyncInv(t);
  }

  lemma AbortSync(s: State, dir: Dir, c: nat)
    requires StageInv(s) && MemInv(s) && RegionInv(s) && ReaderInv(s) && SyncInv(s) && CanWriter(s, dir, c, Aborting)
    ensures SyncInv(Abort(s, dir, c))
  {
    var t := Abort(s, dir, c);
    assert CallFits(s, c);
    if s.sync && s.worker.Handling? { HandlerInSlot(s); }
    hide StageInv, MemInv, RegionInv, ReaderInv;
    if s.sync {
      assert CallSync(s, c);
      if dir == Rsp {
        HeldKept(s.handles, s.held, s.names, s.calls[c].stage, t.calls[c].stage, s.calls[c].slot, s.calls[c].rsp,
                 t.calls[c].rsp);
      }
      hide Held, OneAtATime, PhasesFit, CallFits;
      CallSteps(s, t, c);
    }
    assert SyncInv(t);
  }

  lemma InsertHandleSync(s: State, dir: Dir, c: nat)
    requires StageInv(s) && MemInv(s) && RegionInv(s) && ReaderInv(s) && SyncInv(s) && CanWriter(s, dir, c, Inserting)
    ensures SyncInv(InsertHandle(s, dir, c))
  {
    var t := InsertHandle(s, dir, c);
    if s.sync { InsertHeld(s, dir, c); }
    assert SyncInv(t);
  }

  lemma SignalSync(s: State, dir: Dir, c: nat)
    requires StageInv(s) && MemInv(s) && RegionInv(s) && ReaderInv(s) && SyncInv(s) && CanWriter(s, dir, c, Signalling)
    ensures SyncInv(Signal(s, dir, c))
  {
    var t := Signal(s, dir, c);
    assert CallFits(s, c);
    hide StageInv, MemInv, RegionInv, ReaderInv;
    if s.sync {
      assert CallSync(s, c);
      if dir == Rsp {
        HeldKept(s.handles, s.held, s.names, s.calls[c].stage, t.calls[c].stage, s.calls[c].slot, s.calls[c].rsp,
                 t.calls[c].rsp);
      }
      hide Held, OneAtATime, PhasesFit, CallFits;
      CallSteps(s, t, c);
    }
    assert SyncInv(t);
  }

  lemma WakeSync(s: State, dir: Dir, timeout: bool)
    requires StageInv(s) && MemInv(s) && RegionInv(s) && ReaderInv(s) && SyncInv(s) && CanWake(s, dir, timeout)
    ensures SyncInv(Wake(s, dir, timeout))
  {
    var t := Wake(s, dir, timeout);
    hide StageInv, MemInv, RegionInv, ReaderInv;
    assert SyncInv(t);
  }

  lemma ScanSync(s: State, dir: Dir)
    requires StageInv(s) && MemInv(s) && RegionInv(s) && ReaderInv(s) && SyncInv(s) && CanScan(s, dir)
    ensures SyncInv(Scan(s, dir))
  {
    var t := Scan(s, dir);
    var i := ReaderOf(s, dir).i;
    if dir == Req && i < s.g.numSlots && s.status[i] == Ready {
      ScanClaims(s, i);
    } else {
      hide Scan, StageInv, MemInv, RegionInv, ReaderInv;
    }
    assert SyncInv(t);
  }

  lemma ReadSync(s: State, dir: Dir)
    requires StageInv(s) && MemInv(s) && RegionInv(s) && ReaderInv(s) && SyncInv(s) && CanRead(s, dir)
    ensures SyncInv(Read(s, dir))
  {
    var t := Read(s, dir);
    if s.sync && dir == Rsp { ReadResultOk(s); }
    hide Read, StageInv, MemInv, RegionInv, ReaderInv;
    assert SyncInv(t);
  }

  lemma FinishReadSync(s: State)
    requires StageInv(s) && MemInv(s) && RegionInv(s) && ReaderInv(s) && SyncInv(s) && CanFinishRead(s)
    ensures SyncInv(FinishRead(s))
  {
    var t := FinishRead(s);
    OccupantReading(s);
    if s.sync { HandlerStarts(s); }
    assert SyncInv(t);
  }

  lemma RespondSync(s: State, c: nat, p: Payload)
    requires StageInv(s) && MemInv(s) && RegionInv(s) && ReaderInv(s) && SyncInv(s) && CanWriter(s, Rsp, c, Asked)
    ensures SyncInv(Respond(s, c, p))
  {
    var t := Respond(s, c, p);
    assert CallFits(s, c);
    hide StageInv, MemInv, RegionInv, ReaderInv;
    if s.sync {
      assert CallSync(s, c);
      { HeldKept(s.handles, s.held, s.names, s.calls[c].stage, t.calls[c].stage, s.calls[c].slot, s.calls[c].rsp,
                 t.calls[c].rsp); }
      hide Held, OneAtATime, PhasesFit, CallFits;
      CallSteps(s, t, c);
    }
    assert SyncInv(t);
  }

  lemma LeaveHandlerSync(s: State)
    requires StageInv(s) && MemInv(s) && RegionInv(s) && ReaderInv(s) && SyncInv(s) && CanLeaveHandler(s)
    ensures SyncInv(LeaveHandler(s))
  {
    var t := LeaveHandler(s);
    if s.sync {
      forall d | 0 <= d < |t.calls| ensures CallSync(t, d) {
        assert CallSync(s, d);
      }
    }
    hide StageInv, MemInv, RegionInv, ReaderInv;
    assert SyncInv(t);
  }

  lemma FreeSlotSync(s: State)
    requires StageInv(s) && MemInv(s) && RegionInv(s) && ReaderInv(s) && SyncInv(s) && CanFree(s)
    ensures SyncInv(FreeSlot(s))
  {
    var t := FreeSlot(s);
    OccupantReading(s);
    var c := s.occ[s.watcher.i];
    assert t.calls == s.calls[c := s.calls[c].(stage := After(Taken))];
    assert HandlerOwnsSlot(t);
    assert t.watcher == Freed(s.watcher.i, s.watcher.id, s.watcher.result, c);
    hide FreeSlot, OneAtATime, StageInv, MemInv, RegionInv, ReaderInv;
    if s.sync {
      assert CallSync(s, c);
      CallSteps(s, t, c);
    }
    assert SyncInv(t);
  }

  lemma DropRequestHandleSync(s: State)
    requires StageInv(s) && MemInv(s) && RegionInv(s) && ReaderInv(s) && SyncInv(s) && s.watcher.Freed?
    ensures SyncInv(DropRequestHandle(s))
  {
    var t := DropRequestHandle(s);
    if s.sync { DropRequestHeld(s); }
    assert SyncInv(t);
  }

  lemma ResolveSync(s: State)
    requires StageInv(s) && MemInv(s) && RegionInv(s) && ReaderInv(s) && SyncInv(s) && s.watcher.Resolving?
    ensures SyncInv(Resolve(s))
  {
    var t := Resolve(s);
    hide MemInv, RegionInv, StageInv, ReaderInv;
    if s.sync {
      assert Outcome(s) != ResponseUnread && !After(Outcome(s)).In?;
      hide Resolve, Outcome;
      forall d | 0 <= d < |t.calls| ensures CallSync(t, d) {
        assert CallSync(s, d);
      }
    }
    hide Resolve, OneAtATime, Held;
  }

  lemma VanishSync(s: State, name: Name)
    requires StageInv(s) && MemInv(s) && RegionInv(s) && ReaderInv(s) && SyncInv(s) && name in s.names
    requires s.names[name] !in s.held
    ensures SyncInv(Vanish(s, name))
  {
    var t := Vanish(s, name);
    if s.sync {
      forall c | 0 <= c < |t.calls| ensures CallSync(t, c) {
        assert CallSync(s, c) && CallRegions(s, c);
        hide StageInv, MemInv, RegionInv, ReaderInv, SyncInv, OneAtATime;
      }
    }
    hide MemInv, RegionInv, ReaderInv, StageInv, OneAtATime, Held;
  }

  lemma SyncStep(s: State, a: Action)
    requires StageInv(s) && MemInv(s) && RegionInv(s) && ReaderInv(s) && SyncInv(s) && Enabled(s, a)
    ensures SyncInv(Step(s, a))
  {
    match a
    case DoStart(id, p) =>
      StartSync(s, id, p);
    case DoClaim(c) =>
      ClaimSync(s, c);
    case DoRegister(c) =>
      RegisterSync(s, c);
    case DoDropStale(dir, c) =>
      DropStaleSync(s, dir, c);
    case DoWriteNext(dir, c) =>
      WriteNextSync(s, dir, c);
    case DoTryCreate(dir, c, fault) =>
      TryCreateSync(s, dir, c, fault);
    case DoFill(dir, c) =>
      FillSync(s, dir, c);
    case DoPublish(dir, c) =>
      PublishSync(s, dir, c);
    case DoAbort(dir, c) =>
      AbortSync(s, dir, c);
    case DoInsertHandle(dir, c) =>
      InsertHandleSync(s, dir, c);
    case DoSignal(dir, c) =>
      SignalSync(s, dir, c);
    case DoWake(dir, timeout) =>
      WakeSync(s, dir, timeout);
    case DoScan(dir) =>
      ScanSync(s, dir);
    case DoRead(dir) =>
      ReadSync(s, dir);
    case DoFinishRead =>
      FinishReadSync(s);
    case DoRespond(c, p) =>
      RespondSync(s, c, p);
    case DoLeaveHandler =>
      LeaveHandlerSync(s);
    case DoFree =>
      FreeSlotSync(s);
    case DoDropRequestHandle =>
      DropRequestHandleSync(s);
    case DoResolve =>
      ResolveSync(s);
    case DoVanish(name) =>
      VanishSync(s, name);
  }
}
