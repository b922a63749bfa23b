/** The pending map and the one-shot receivers: a response found under an id goes to the dispatch
    that used that id, once, and is what `send_response` was given. */
module Pending {
  import opened Bytes
  import opened Layout
  import opened Slots
  import opened Protocol
  import opened Stages
  import opened Readers

  predicate Registered(call: Call) {
    call.req.phase == Signalling || call.req.phase == Returned
  }

  ghost predicate DistinctIds(s: State) {
    && (forall c :: 0 <= c < |s.calls| ==> ValidId(s.calls[c].id))
    && (forall c, d :: 0 <= c < d < |s.calls| ==> s.calls[c].id != s.calls[d].id)
  }

  /** A registered request is pending until its receiver is resolved, with the very response sent. */
  predicate CallPending(s: State, c: nat)
    requires c < |s.calls|
  {
    var call := s.calls[c];
    && (Registered(call) && call.receiver.None? ==> call.id in s.pending && s.pending[call.id] == c)
    && (call.receiver.Some? <==> call.stage == After(Delivered))
    && (call.receiver.Some? ==> Registered(call) && call.receiver.value == Received(Rsp, call.rsp.payload))
    && (call.stage == After(ResponseUnread) ==> call.rsp.region.Some?)
  }

  ghost predicate CallsPending(s: State) {
    forall c {:trigger s.calls[c]} {:trigger CallPending(s, c)} :: 0 <= c < |s.calls| ==> CallPending(s, c)
  }

  ghost predicate EntriesOk(s: State) {
    forall id :: id in s.pending ==>
      && s.pending[id] < |s.calls| && s.calls[s.pending[id]].id == id
      && Registered(s.calls[s.pending[id]]) && s.calls[s.pending[id]].receiver.None?
  }

  ghost predicate PendingInv(s: State) {
    DistinctIds(s) && CallsPending(s) && EntriesOk(s)
  }

  /** The id the watcher looks up is the id of the request it took, so an entry it finds is that
      request's own. */
  lemma ResolveTarget(s: State)
    requires StageInv(s) && ReaderInv(s) && PendingInv(s) && s.watcher.Resolving?
    ensures s.watcher.c < |s.calls| && s.calls[s.watcher.c].id == s.watcher.id
    ensures s.watcher.id in s.pending ==> s.pending[s.watcher.id] == s.watcher.c
    ensures s.watcher.result.Some? ==> s.watcher.result.value == Received(Rsp, s.calls[s.watcher.c].rsp.payload)
    ensures s.watcher.result.None? ==> s.calls[s.watcher.c].rsp.region.Some?
    ensures s.calls[s.watcher.c].stage == After(Taken)
  {
    hide Received, ReceivedId;
    var c := s.watcher.c;
    assert ReadsCall(s.calls[c], Rsp, s.watcher);
    ReceivedIdExact(s.calls[c].id);
    if s.watcher.id in s.pending {
      var d := s.pending[s.watcher.id];
      assert s.calls[d].id == s.calls[c].id;
    }
  }

  /** The pending map without the entry of a request whose receiver has been resolved. */
  lemma EntryResolved(s: State, t: State, c: nat, p: Payload)
    requires PendingInv(s) && c < |s.calls| && s.calls[c].id in s.pending && s.pending[s.calls[c].id] == c
    requires p == Received(Rsp, s.calls[c].rsp.payload)
    requires t.calls == s.calls[c := s.calls[c].(stage := After(Delivered), receiver := Some(p))]
    requires t.pending == s.pending - {s.calls[c].id}
    ensures PendingInv(t)
  {
    hide Received;
    assert Registered(s.calls[c]);
    forall d | 0 <= d < |t.calls| ensures CallPending(t, d) {
      assert CallPending(s, d);
    }
    hide CallPending;
    assert EntriesOk(t) && DistinctIds(t);
  }

  lemma DeliverPending(s: State)
    requires s.watcher.Resolving? && PendingInv(s) && Outcome(s) == Delivered
    requires s.watcher.c < |s.calls| && s.calls[s.watcher.c].id == s.watcher.id
    requires s.pending[s.watcher.id] == s.watcher.c
    requires s.watcher.result.value == Received(Rsp, s.calls[s.watcher.c].rsp.payload)
    ensures PendingInv(Resolve(s))
  {
    var t := Resolve(s);
    var c := s.watcher.c;
    assert t.calls == s.calls[c := s.calls[c].(stage := After(Delivered), receiver := s.watcher.result)];
    hide Resolve, Outcome, PendingInv, Received;
    EntryResolved(s, t, c, s.watcher.result.value);
  }

  // ---- Steps --------------------------------------------------------------------------------------

  /** A move of one request that registers, resolves and renames nothing. */
  lemma CallKept(s: State, t: State, c: nat)
    requires PendingInv(s) && c < |s.calls| == |t.calls| && t.calls == s.calls[c := t.calls[c]]
    requires t.pending == s.pending
    requires t.calls[c].id == s.calls[c].id && t.calls[c].receiver == s.calls[c].receiver
    requires Registered(t.calls[c]) == Registered(s.calls[c])
    requires t.calls[c].stage == s.calls[c].stage
               || (t.calls[c].stage != After(Delivered) && s.calls[c].stage != After(Delivered)
                   && t.calls[c].stage != After(ResponseUnread))
    requires t.calls[c].receiver.Some? ==> t.calls[c].rsp.payload == s.calls[c].rsp.payload
    requires t.calls[c].stage == After(ResponseUnread) ==> t.calls[c].rsp.region == s.calls[c].rsp.region
    ensures PendingInv(t)
  {
    hide Received;
    assert CallPending(s, c);
  }

  lemma StartPending(s: State, id: seq<byte>, p: Payload)
    requires StageInv(s) && ReaderInv(s) && PendingInv(s) && FreshId(s, id)
    ensures PendingInv(Start(s, id, p))
  {
    var t := Start(s, id, p);
    assert PendingInv(t);
  }

  lemma TakesPending(s: State, t: State, c: nat, j: nat)
    requires Shape(s) && PendingInv(s) && c < |s.calls| && j < s.g.numSlots && Takes(s, t, c, j)
    requires s.calls[c].stage == Before && !Registered(s.calls[c])
    ensures PendingInv(t)
  {
    assert CallPending(s, c);
    hide PendingInv;
    CallKept(s, t, c);
  }

  lemma MovesOnPending(s: State, t: State, c: nat)
    requires Shape(s) && PendingInv(s) && CanClaim(s, c) && s.calls[c].stage == Before && MovesOn(s, t, c)
    ensures PendingInv(t)
  {
    assert CallPending(s, c);
    hide PendingInv;
    CallKept(s, t, c);
  }

  lemma ClaimPending(s: State, c: nat)
    requires StageInv(s) && ReaderInv(s) && PendingInv(s) && CanClaim(s, c)
    ensures PendingInv(Claim(s, c))
  {
    ClaimEffect(s, c);
    hide StageInv, ReaderInv, PendingInv, Claim, Takes, MovesOn;
    if ClaimSucceeds(s, c) {
      TakesPending(s, Claim(s, c), c, s.calls[c].req.phase.next);
    } else {
      MovesOnPending(s, Claim(s, c), c);
    }
  }

  lemma RegisterPending(s: State, c: nat)
    requires StageInv(s) && ReaderInv(s) && PendingInv(s) && CanRegister(s, c)
    ensures PendingInv(Register(s, c))
  {
    var t := Register(s, c);
    assert CallFits(s, c);
    assert PendingInv(t);
  }

  lemma DropStalePending(s: State, dir: Dir, c: nat)
    requires StageInv(s) && ReaderInv(s) && PendingInv(s) && CanWriter(s, dir, c, Dropping)
    ensures PendingInv(DropStale(s, dir, c))
  {
    var t := DropStale(s, dir, c);
    assert CallFits(s, c);
    hide StageInv, ReaderInv, DropHandleOf;
    CallKept(s, t, c);
    assert PendingInv(t);
  }

  lemma WriteNextPending(s: State, dir: Dir, c: nat)
    requires StageInv(s) && ReaderInv(s) && PendingInv(s) && CanWriteNext(s, dir, c)
    ensures PendingInv(WriteNext(s, dir, c))
  {
    var t := WriteNext(s, dir, c);
    assert CallFits(s, c);
    hide WriteNext, ProgramOf, StageInv, ReaderInv;
    CallKept(s, t, c);
    assert PendingInv(t);
  }

  lemma TryCreatePending(s: State, dir: Dir, c: nat, fault: bool)
    requires StageInv(s) && ReaderInv(s) && PendingInv(s) && CanTryCreate(s, dir, c)
    ensures PendingInv(TryCreate(s, dir, c, fault))
  {
    var t := TryCreate(s, dir, c, fault);
    assert CallFits(s, c);
    hide TryCreate, StageInv, ReaderInv;
    CallKept(s, t, c);
    assert PendingInv(t);
  }

  lemma FillPending(s: State, dir: Dir, c: nat)
    requires StageInv(s) && ReaderInv(s) && PendingInv(s) && CanFill(s, dir, c)
    ensures PendingInv(Fill(s, dir, c))
  {
    var t := Fill(s, dir, c);
    assert CallFits(s, c);
    hide StageInv, ReaderInv, DropHandleOf;
    CallKept(s, t, c);
    assert PendingInv(t);
  }

  lemma PublishPending(s: State, dir: Dir, c: nat)
    requires StageInv(s) && ReaderInv(s) && PendingInv(s) && CanPublish(s, dir, c)
    ensures PendingInv(Publish(s, dir, c))
  {
    var t := Publish(s, dir, c);
    assert CallFits(s, c);
    assert s.calls[c].stage != After(Delivered);
    hide StageInv, ReaderInv, ProgramOf;
    CallKept(s, t, c);
    assert PendingInv(t);
  }

  lemma AbortPending(s: State, dir: Dir, c: nat)
    requires StageInv(s) && ReaderInv(s) && PendingInv(s) && CanWriter(s, dir, c, Aborting)
    ensures PendingInv(Abort(s, dir, c))
  {
    var t := Abort(s, dir, c);
    assert CallFits(s, c);
    assert s.calls[c].stage != After(Delivered);
    hide StageInv, ReaderInv, ProgramOf;
    CallKept(s, t, c);
    assert PendingInv(t);
  }

  lemma InsertHandlePending(s: State, dir: Dir, c: nat)
    requires StageInv(s) && ReaderInv(s) && PendingInv(s) && CanWriter(s, dir, c, Inserting)
    ensures PendingInv(InsertHandle(s, dir, c))
  {
    var t := InsertHandle(s, dir, c);
    assert CallFits(s, c);
    hide InsertHandle, StageInv, ReaderInv;
    CallKept(s, t, c);
    assert PendingInv(t);
  }

  lemma SignalPending(s: State, dir: Dir, c: nat)
    requires StageInv(s) && ReaderInv(s) && PendingInv(s) && CanWriter(s, dir, c, Signalling)
    ensures PendingInv(Signal(s, dir, c))
  {
    var t := Signal(s, dir, c);
    assert CallFits(s, c);
    hide StageInv, ReaderInv;
    CallKept(s, t, c);
    assert PendingInv(t);
  }

  lemma WakePending(s: State, dir: Dir, timeout: bool)
    requires StageInv(s) && ReaderInv(s) && PendingInv(s) && CanWake(s, dir, timeout)
    ensures PendingInv(Wake(s, dir, timeout))
  {
    var t := Wake(s, dir, timeout);
    assert PendingInv(t);
  }

  lemma ScanPending(s: State, dir: Dir)
    requires StageInv(s) && ReaderInv(s) && PendingInv(s) && CanScan(s, dir)
    ensures PendingInv(Scan(s, dir))
  {
    var t := Scan(s, dir);
    ScanEffect(s, dir);
    hide Scan, StageInv, ReaderInv;
    if ScanTakes(s, dir) {
      hide PendingInv;
      CallKept(s, t, s.occ[ReaderOf(s, dir).i]);
    } else {
      SamePending(s, t);
    }
  }

  lemma SamePending(s: State, t: State)
    requires PendingInv(s) && t.calls == s.calls && t.pending == s.pending
    ensures PendingInv(t)
  {
    hide Received;
  }

  lemma ReadPending(s: State, dir: Dir)
    requires StageInv(s) && ReaderInv(s) && PendingInv(s) && CanRead(s, dir)
    ensures PendingInv(Read(s, dir))
  {
    var t := Read(s, dir);
    hide Read, StageInv, ReaderInv;
    assert PendingInv(t);
  }

  lemma FinishReadPending(s: State)
    requires StageInv(s) && ReaderInv(s) && PendingInv(s) && CanFinishRead(s)
    ensures PendingInv(FinishRead(s))
  {
    var t := FinishRead(s);
    FinishReadEffect(s);
    hide FinishRead, StageInv, ReaderInv;
    CallKept(s, t, s.occ[s.worker.i]);
  }

  lemma RespondPending(s: State, c: nat, p: Payload)
    requires StageInv(s) && ReaderInv(s) && PendingInv(s) && CanWriter(s, Rsp, c, Asked)
    ensures PendingInv(Respond(s, c, p))
  {
    var t := Respond(s, c, p);
    assert CallFits(s, c);
    assert s.calls[c].stage != After(Delivered);
    hide StageInv, ReaderInv, ProgramOf;
    CallKept(s, t, c);
    assert PendingInv(t);
  }

  lemma LeaveHandlerPending(s: State)
    requires StageInv(s) && ReaderInv(s) && PendingInv(s) && CanLeaveHandler(s)
    ensures PendingInv(LeaveHandler(s))
  {
    var t := LeaveHandler(s);
    assert PendingInv(t);
  }

  lemma FreeSlotPending(s: State)
    requires StageInv(s) && ReaderInv(s) && PendingInv(s) && CanFree(s)
    ensures PendingInv(FreeSlot(s))
  {
    var t := FreeSlot(s);
    FreeEffect(s);
    hide FreeSlot, StageInv, ReaderInv, PendingInv;
    CallKept(s, t, s.occ[s.watcher.i]);
  }

  lemma DropRequestHandlePending(s: State)
    requires StageInv(s) && ReaderInv(s) && PendingInv(s) && s.watcher.Freed?
    ensures PendingInv(DropRequestHandle(s))
  {
    var t := DropRequestHandle(s);
    assert PendingInv(t);
  }

  lemma LosePending(s: State)
    requires s.watcher.Resolving? && PendingInv(s) && Outcome(s) != Delivered
    requires s.watcher.c < |s.calls| && s.calls[s.watcher.c].stage == After(Taken)
    requires s.watcher.result.None? ==> s.calls[s.watcher.c].rsp.region.Some?
    ensures PendingInv(Resolve(s))
  {
    var t := Resolve(s);
    var c := s.watcher.c;
    var fate := Outcome(s);
    assert t.calls == s.calls[c := s.calls[c].(stage := After(fate))] && t.pending == s.pending;
    assert CallPending(s, c);
    assert fate == ResponseUnread ==> s.calls[c].rsp.region.Some?;
    hide Resolve, Outcome, Received;
    forall d | 0 <= d < |t.calls| ensures CallPending(t, d) {
      assert CallPending(s, d);
    }
  }

  lemma ResolvePending(s: State)
    requires StageInv(s) && ReaderInv(s) && PendingInv(s) && s.watcher.Resolving?
    ensures PendingInv(Resolve(s))
  {
    ResolveTarget(s);
    hide ReaderInv, StageInv, PendingInv, Resolve;
    if Outcome(s) == Delivered {
      DeliverPending(s);
    } else {
      LosePending(s);
    }
  }

  lemma VanishPending(s: State, name: Name)
    requires StageInv(s) && ReaderInv(s) && PendingInv(s) && name in s.names && s.names[name] !in s.held
    ensures PendingInv(Vanish(s, name))
  {
    var t := Vanish(s, name);
    assert PendingInv(t);
  }

  lemma PendingStep(s: State, a: Action)
    requires StageInv(s) && ReaderInv(s) && PendingInv(s) && Enabled(s, a)
    ensures PendingInv(Step(s, a))
  {
    match a
    case DoStart(id, p) =>
      StartPending(s, id, p);
    case DoClaim(c) =>
      ClaimPending(s, c);
    case DoRegister(c) =>
      RegisterPending(s, c);
    case DoDropStale(dir, c) =>
      DropStalePending(s, dir, c);
    case DoWriteNext(dir, c) =>
      WriteNextPending(s, dir, c);
    case DoTryCreate(dir, c, fault) =>
      TryCreatePending(s, dir, c, fault);
    case DoFill(dir, c) =>
      FillPending(s, dir, c);
    case DoPublish(dir, c) =>
      PublishPending(s, dir, c);
    case DoAbort(dir, c) =>
      AbortPending(s, dir, c);
    case DoInsertHandle(dir, c) =>
      InsertHandlePending(s, dir, c);
    case DoSignal(dir, c) =>
      SignalPending(s, dir, c);
    case DoWake(dir, timeout) =>
      WakePending(s, dir, timeout);
    case DoScan(dir) =>
      ScanPending(s, dir);
    case DoRead(dir) =>
      ReadPending(s, dir);
    case DoFinishRead =>
      FinishReadPending(s);
    case DoRespond(c, p) =>
      RespondPending(s, c, p);
    case DoLeaveHandler =>
      LeaveHandlerPending(s);
    case DoFree =>
      FreeSlotPending(s);
    case DoDropRequestHandle =>
      DropRequestHandlePending(s);
    case DoResolve =>
      ResolvePending(s);
    case DoVanish(name) =>
      VanishPending(s, name);
  }
}
