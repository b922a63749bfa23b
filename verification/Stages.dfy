/** Who is where: every thread's program counter fits the status of the one slot it works on,
    and every occupied slot has exactly one request in it. */
module Stages {
  import opened Bytes
  import opened Layout
  import opened Slots
  import opened Protocol

  predicate Preparing(phase: Phase) {
    phase == Dropping || phase.Storing? || phase.Creating? || phase == Filling || phase == Aborting
  }

  predicate Published(dir: Dir, phase: Phase) {
    phase == Inserting || (phase == Registering && dir == Req) || phase == Signalling || phase == Returned
  }

  /** The program counters a request's two writers can have at each stage. */
  predicate PhasesFit(stage: Stage, req: Phase, rsp: Phase) {
    match stage
    case Before => req.Looking? && rsp == Idle
    case In(Free) => false
    case In(Writing) => Preparing(req) && rsp == Idle
    case In(Ready) => Published(Req, req) && rsp == Idle
    case In(Claimed) => Published(Req, req) && (rsp == Idle || rsp == Asked || Preparing(rsp))
    case In(Done) => Published(Req, req) && Published(Rsp, rsp)
    case After(NoFreeSlot) => req == Refused && rsp == Idle
    case After(RequestRefused) => req == Refused && rsp == Idle
    case After(RequestUnread) => Published(Req, req) && rsp == Idle
    case After(ResponseRefused) => Published(Req, req) && rsp == Refused
    case After(_) => Published(Req, req) && Published(Rsp, rsp)
  }

  /** A request in a slot is the slot's occupant, and the status word says how far it has got. */
  predicate CallFits(s: State, c: nat)
    requires Shape(s) && c < |s.calls|
  {
    var call := s.calls[c];
    && PhasesFit(call.stage, call.req.phase, call.rsp.phase)
    && (call.stage.In? ==>
      call.slot < s.g.numSlots && s.occ[call.slot] == c && s.status[call.slot] == call.stage.status)
  }

  /** A slot that is not Free has an occupant, and that request is in this slot. */
  predicate SlotFits(s: State, i: nat)
    requires Shape(s) && i < s.g.numSlots
  {
    s.status[i] != Free ==>
      s.occ[i] < |s.calls| && s.calls[s.occ[i]].slot == i && s.calls[s.occ[i]].stage == In(s.status[i])
  }

  predicate WorkerFits(s: State)
    requires Shape(s)
  {
    && (Reading(s.worker) ==>
      s.worker.i < s.g.numSlots && s.status[s.worker.i] == Claimed && s.occ[s.worker.i] < |s.calls|
      && s.calls[s.occ[s.worker.i]].rsp.phase == Idle)
    && (s.worker.Handling? ==>
      s.sync && s.worker.c < |s.calls| && s.calls[s.worker.c].slot == s.worker.i < s.g.numSlots
      && s.calls[s.worker.c].rsp.phase != Idle)
    && !s.worker.Freed? && !s.worker.Resolving?
  }

  predicate WatcherFits(s: State)
    requires Shape(s)
  {
    && (Reading(s.watcher) ==> s.watcher.i < s.g.numSlots && s.status[s.watcher.i] == Done)
    && (s.watcher.Freed? || s.watcher.Resolving? ==>
      s.watcher.i < s.g.numSlots && s.watcher.c < |s.calls| && s.calls[s.watcher.c].stage == After(Taken))
    && !s.watcher.Handling?
  }

  /** Nobody is waited for in vain: the reader a request depends on is working on it. */
  predicate ReaderOfCall(s: State, c: nat)
    requires Shape(s) && c < |s.calls|
  {
    var call := s.calls[c];
    && (call.stage == In(Claimed) && call.rsp.phase == Idle ==> Reading(s.worker) && s.worker.i == call.slot)
    && (call.stage == After(Taken) ==> (s.watcher.Freed? || s.watcher.Resolving?) && s.watcher.c == c)
  }

  ghost predicate SlotsFit(s: State)
    requires Shape(s)
  {
    forall i ::  0 <= i < s.g.numSlots ==> SlotFits(s, i)
  }

  ghost predicate CallsFit(s: State)
    requires Shape(s)
  {
    forall c {:trigger s.calls[c]} {:trigger CallFits(s, c)} :: 0 <= c < |s.calls| ==> CallFits(s, c)
  }

  ghost predicate ReadersServe(s: State)
    requires Shape(s)
  {
    forall c {:trigger s.calls[c]} {:trigger ReaderOfCall(s, c)} :: 0 <= c < |s.calls| ==> ReaderOfCall(s, c)
  }

  ghost predicate StageInv(s: State) {
    Shape(s) && SlotsFit(s) && CallsFit(s) && ReadersServe(s) && WorkerFits(s) && WatcherFits(s)
  }

  // ---- What the readers do to requests ------------------------------------------------------

  /** The request a reader is reading is in its slot at the stage that reader owns. */
  lemma OccupantReading(s: State)
    requires StageInv(s)
    ensures Reading(s.worker) ==>
              && s.worker.i < s.g.numSlots && s.occ[s.worker.i] < |s.calls|
              && s.calls[s.occ[s.worker.i]].slot == s.worker.i && s.calls[s.occ[s.worker.i]].stage == In(Claimed)
              && s.calls[s.occ[s.worker.i]].rsp.phase == Idle
    ensures Reading(s.watcher) ==>
              && s.watcher.i < s.g.numSlots && s.occ[s.watcher.i] < |s.calls|
              && s.calls[s.occ[s.watcher.i]].slot == s.watcher.i && s.calls[s.occ[s.watcher.i]].stage == In(Done)
              && Published(Rsp, s.calls[s.occ[s.watcher.i]].rsp.phase)
  {
    if Reading(s.worker) { assert SlotFits(s, s.worker.i); }
    if Reading(s.watcher) { assert SlotFits(s, s.watcher.i); }
  }

  /** The worker's exchange takes slot `i` and its occupant on to Claimed. */
  predicate Claims(s: State, t: State, i: nat)
    requires Shape(s) && i < s.g.numSlots
  {
    var c := s.occ[i];
    && c < |s.calls| && s.calls[c].stage == In(Ready) && s.calls[c].slot == i && s.calls[c].rsp.phase == Idle
    && t == s.(status := s.status[i := Claimed], calls := s.calls[c := s.calls[c].(stage := In(Claimed))],
               worker := AtHead(i))
  }

  /** The scan moves on, or the watcher has found a finished response. */
  predicate LooksOn(s: State, t: State, dir: Dir)
    requires Shape(s) && CanScan(s, dir)
  {
    var i, r := ReaderOf(s, dir).i, ReaderOf(t, dir);
    && t == WithReader(s, dir, r)
    && ((i >= s.g.numSlots && r == Waiting)
        || (i < s.g.numSlots && s.status[i] != PublishedStatus(dir) && r == Scanning(i + 1))
        || (i < s.g.numSlots && s.status[i] == Done && dir == Rsp && r == AtHead(i)))
  }

  predicate ScanTakes(s: State, dir: Dir)
    requires Shape(s) && CanScan(s, dir)
  {
    dir == Req && ReaderOf(s, dir).i < s.g.numSlots && s.status[ReaderOf(s, dir).i] == Ready
  }

  lemma ScanEffect(s: State, dir: Dir)
    requires StageInv(s) && CanScan(s, dir)
    ensures if ScanTakes(s, dir) then Claims(s, Scan(s, dir), ReaderOf(s, dir).i) else LooksOn(s, Scan(s, dir), dir)
  {
    var i := ReaderOf(s, dir).i;
    if ScanTakes(s, dir) {
      assert SlotFits(s, i);
    }
  }

  /** The worker frees a slot it could not read. */
  predicate GivesUp(s: State, t: State)
    requires Shape(s) && CanFinishRead(s)
  {
    var i, c := s.worker.i, s.occ[s.worker.i];
    && c < |s.calls|
    && t == s.(status := s.status[i := Free], calls := s.calls[c := s.calls[c].(stage := After(RequestUnread))],
               worker := Scanning(i + 1))
  }

  /** The worker hands a request to its handler. */
  predicate HandsOver(s: State, t: State)
    requires Shape(s) && CanFinishRead(s) && s.worker.result.Some?
  {
    var i, c := s.worker.i, s.occ[s.worker.i];
    && c < |s.calls|
    && t == s.(calls := s.calls[c := s.calls[c].(rsp := s.calls[c].rsp.(phase := Asked),
                                                 seen := Some((s.worker.id, s.worker.result.value)))],
               worker := if s.sync then Handling(i, c) else Scanning(i + 1))
  }

  lemma FinishReadEffect(s: State)
    requires StageInv(s) && CanFinishRead(s)
    ensures var c := s.occ[s.worker.i];
            && s.status[s.worker.i] == Claimed && c < |s.calls|
            && s.calls[c].slot == s.worker.i && s.calls[c].stage == In(Claimed) && s.calls[c].rsp.phase == Idle
    ensures if s.worker.result.None? then GivesUp(s, FinishRead(s)) else HandsOver(s, FinishRead(s))
  {
    OccupantReading(s);
    hide StageInv;
  }

  /** The watcher's exchange frees the slot and takes the response with it. */
  predicate Frees(s: State, t: State)
    requires Shape(s) && CanFree(s)
  {
    var i, c := s.watcher.i, s.occ[s.watcher.i];
    && c < |s.calls|
    && t == s.(status := s.status[i := Free], calls := s.calls[c := s.calls[c].(stage := After(Taken))],
               watcher := Freed(i, s.watcher.id, s.watcher.result, c))
  }

  lemma FreeEffect(s: State)
    requires StageInv(s) && CanFree(s)
    ensures var c := s.occ[s.watcher.i];
            && s.status[s.watcher.i] == Done && c < |s.calls|
            && s.calls[c].slot == s.watcher.i && s.calls[c].stage == In(Done) && Published(Rsp, s.calls[c].rsp.phase)
    ensures Frees(s, FreeSlot(s))
  {
    OccupantReading(s);
    hide StageInv, Published;
  }

  /** A dispatch takes the Free slot it is at. */
  predicate Takes(s: State, t: State, c: nat, j: nat)
    requires Shape(s) && c < |s.calls| && j < s.g.numSlots
  {
    && s.status[j] == Free
    && t == s.(status := s.status[j := Writing], occ := s.occ[j := c],
               calls := s.calls[c := s.calls[c].(req := s.calls[c].req.(phase := Dropping), slot := j,
                                                 stage := In(Writing))])
  }

  /** Or it tries the next, or has tried them all. */
  predicate MovesOn(s: State, t: State, c: nat)
    requires Shape(s) && CanClaim(s, c)
  {
    var call, j := s.calls[c], s.calls[c].req.phase.next;
    || t == s.(calls := s.calls[c := call.(req := call.req.(phase := Looking(j + 1)))])
    || t == s.(calls := s.calls[c := call.(req := call.req.(phase := Refused), stage := After(NoFreeSlot))])
  }

  predicate ClaimSucceeds(s: State, c: nat)
    requires Shape(s) && CanClaim(s, c)
  {
    s.calls[c].req.phase.next < s.g.numSlots && s.status[s.calls[c].req.phase.next] == Free
  }

  lemma ClaimEffect(s: State, c: nat)
    requires StageInv(s) && CanClaim(s, c)
    ensures s.calls[c].stage == Before && s.calls[c].rsp.phase == Idle
    ensures if ClaimSucceeds(s, c) then Takes(s, Claim(s, c), c, s.calls[c].req.phase.next)
              else MovesOn(s, Claim(s, c), c)
  {
    assert CallFits(s, c);
    hide StageInv;
  }

  // ---- Steps --------------------------------------------------------------------------

  /** Slots whose occupants keep their slot and stage still fit. */
  lemma SlotsStay(s: State, t: State)
    requires StageInv(s) && Alike(s, t) && |s.calls| <= |t.calls|
    requires t.status == s.status && t.occ == s.occ
    requires forall c :: 0 <= c < |s.calls| && s.calls[c].stage.In? ==>
               t.calls[c].stage == s.calls[c].stage && t.calls[c].slot == s.calls[c].slot
    ensures SlotsFit(t)
  {
    forall i | 0 <= i < s.g.numSlots ensures SlotFits(t, i) {
      assert SlotFits(s, i);
    }
  }

  /** A writer's own move that touches no status word. */
  lemma CallMoves(s: State, t: State, c: nat)
    requires StageInv(s) && Alike(s, t) && c < |s.calls| == |t.calls|
    requires t.status == s.status && t.occ == s.occ && t.worker == s.worker && t.watcher == s.watcher
    requires t.calls == s.calls[c := t.calls[c]]
    requires t.calls[c].stage == s.calls[c].stage && t.calls[c].slot == s.calls[c].slot
    requires PhasesFit(t.calls[c].stage, t.calls[c].req.phase, t.calls[c].rsp.phase)
    requires t.calls[c].rsp.phase == Idle <==> s.calls[c].rsp.phase == Idle
    ensures StageInv(t)
  {
    SlotsStay(s, t);
  }

  /** A change of status word `i`, made together with the move of the request that owns the slot. */
  lemma SlotMoves(s: State, t: State, i: nat, c: nat)
    requires StageInv(s) && Alike(s, t) && i < s.g.numSlots && c < |s.calls| == |t.calls|
    requires t.status == s.status[i := t.status[i]] && t.occ == s.occ[i := c]
    requires t.calls == s.calls[c := t.calls[c]] && t.calls[c].slot == i
    requires PhasesFit(t.calls[c].stage, t.calls[c].req.phase, t.calls[c].rsp.phase)
    requires s.calls[c].stage == Before || s.calls[c].slot == i
    requires s.status[i] == Free || s.occ[i] == c
    requires if t.status[i] == Free then !t.calls[c].stage.In? else t.calls[c].stage == In(t.status[i])
    ensures SlotsFit(t) && CallsFit(t)
  {
    forall j | 0 <= j < s.g.numSlots ensures SlotFits(t, j) {
      assert SlotFits(s, j);
    }
  }

  lemma ClaimTakes(s: State, t: State, c: nat, j: nat)
    requires StageInv(s) && c < |s.calls| && s.calls[c].stage == Before && s.calls[c].rsp.phase == Idle
    requires j < s.g.numSlots && Takes(s, t, c, j)
    ensures StageInv(t)
  {
    SlotMoves(s, t, j, c);
    assert StageInv(t);
  }

  lemma ClaimMovesOn(s: State, t: State, c: nat)
    requires StageInv(s) && CanClaim(s, c) && s.calls[c].stage == Before && s.calls[c].rsp.phase == Idle
    requires MovesOn(s, t, c)
    ensures StageInv(t)
  {
    SlotsStay(s, t);
    assert StageInv(t);
  }

  lemma StartStage(s: State, id: seq<byte>, p: Payload)
    requires StageInv(s) && FreshId(s, id)
    ensures StageInv(Start(s, id, p))
  {
    var t := Start(s, id, p);
    SlotsStay(s, t);
    assert StageInv(t);
  }

  lemma ClaimStage(s: State, c: nat)
    requires StageInv(s) && CanClaim(s, c)
    ensures StageInv(Claim(s, c))
  {
    ClaimEffect(s, c);
    hide StageInv, Claim, Takes, MovesOn;
    if ClaimSucceeds(s, c) {
      ClaimTakes(s, Claim(s, c), c, s.calls[c].req.phase.next);
    } else {
      ClaimMovesOn(s, Claim(s, c), c);
    }
  }

  lemma RegisterStage(s: State, c: nat)
    requires StageInv(s) && CanRegister(s, c)
    ensures StageInv(Register(s, c))
  {
    var t := Register(s, c);
    CallMoves(s, t, c);
    assert StageInv(t);
  }

  lemma DropStaleStage(s: State, dir: Dir, c: nat)
    requires StageInv(s) && CanWriter(s, dir, c, Dropping)
    ensures StageInv(DropStale(s, dir, c))
  {
    var t := DropStale(s, dir, c);
    CallMoves(s, t, c);
    assert StageInv(t);
  }

  lemma WriteNextStage(s: State, dir: Dir, c: nat)
    requires StageInv(s) && CanWriteNext(s, dir, c)
    ensures StageInv(WriteNext(s, dir, c))
  {
    var t := WriteNext(s, dir, c);
    hide WriteNext, ProgramOf;
    CallMoves(s, t, c);
    assert StageInv(t);
  }

  lemma TryCreateStage(s: State, dir: Dir, c: nat, fault: bool)
    requires StageInv(s) && CanTryCreate(s, dir, c)
    ensures StageInv(TryCreate(s, dir, c, fault))
  {
    var t := TryCreate(s, dir, c, fault);
    hide TryCreate;
    CallMoves(s, t, c);
    assert StageInv(t);
  }

  lemma FillStage(s: State, dir: Dir, c: nat)
    requires StageInv(s) && CanFill(s, dir, c)
    ensures StageInv(Fill(s, dir, c))
  {
    var t := Fill(s, dir, c);
    CallMoves(s, t, c);
    assert StageInv(t);
  }

  lemma PublishStage(s: State, dir: Dir, c: nat)
    requires StageInv(s) && CanPublish(s, dir, c)
    ensures StageInv(Publish(s, dir, c))
  {
    hide ProgramOf;
    var t := Publish(s, dir, c);
    assert CallFits(s, c);
    SlotMoves(s, t, s.calls[c].slot, c);
    assert StageInv(t);
  }

  lemma AbortStage(s: State, dir: Dir, c: nat)
    requires StageInv(s) && CanWriter(s, dir, c, Aborting)
    ensures StageInv(Abort(s, dir, c))
  {
    var t := Abort(s, dir, c);
    SlotMoves(s, t, s.calls[c].slot, c);
    assert StageInv(t);
  }

  lemma InsertHandleStage(s: State, dir: Dir, c: nat)
    requires StageInv(s) && CanWriter(s, dir, c, Inserting)
    ensures StageInv(InsertHandle(s, dir, c))
  {
    var t := InsertHandle(s, dir, c);
    CallMoves(s, t, c);
    assert StageInv(t);
  }

  lemma SignalStage(s: State, dir: Dir, c: nat)
    requires StageInv(s) && CanWriter(s, dir, c, Signalling)
    ensures StageInv(Signal(s, dir, c))
  {
    var t := Signal(s, dir, c);
    CallMoves(s, t, c);
    assert StageInv(t);
  }

  lemma WakeStage(s: State, dir: Dir, timeout: bool)
    requires StageInv(s) && CanWake(s, dir, timeout)
    ensures StageInv(Wake(s, dir, timeout))
  {
    var t := Wake(s, dir, timeout);
    SlotsStay(s, t);
    assert StageInv(t);
  }

  lemma ScanTakesStage(s: State, t: State, i: nat)
    requires StageInv(s) && s.worker == Scanning(i) && i < s.g.numSlots && s.status[i] == Ready && Claims(s, t, i)
    ensures StageInv(t)
  {
    SlotMoves(s, t, i, s.occ[i]);
    assert StageInv(t);
  }

  lemma LooksOnStage(s: State, t: State, dir: Dir)
    requires StageInv(s) && CanScan(s, dir) && LooksOn(s, t, dir)
    ensures StageInv(t)
  {
    SlotsStay(s, t);
    assert StageInv(t);
  }

  lemma ScanStage(s: State, dir: Dir)
    requires StageInv(s) && CanScan(s, dir)
    ensures StageInv(Scan(s, dir))
  {
    ScanEffect(s, dir);
    hide StageInv, Scan, Claims, LooksOn;
    if ScanTakes(s, dir) {
      ScanTakesStage(s, Scan(s, dir), ReaderOf(s, dir).i);
    } else {
      LooksOnStage(s, Scan(s, dir), dir);
    }
  }

  lemma ReadStage(s: State, dir: Dir)
    requires StageInv(s) && CanRead(s, dir)
    ensures StageInv(Read(s, dir))
  {
    var t := Read(s, dir);
    hide Read;
    SlotsStay(s, t);
    assert StageInv(t);
  }

  lemma GivesUpStage(s: State, t: State)
    requires StageInv(s) && CanFinishRead(s) && GivesUp(s, t)
    ensures StageInv(t)
  {
    assert SlotFits(s, s.worker.i);
    SlotMoves(s, t, s.worker.i, s.occ[s.worker.i]);
    assert StageInv(t);
  }

  lemma HandsOverStage(s: State, t: State)
    requires StageInv(s) && CanFinishRead(s) && s.worker.result.Some? && HandsOver(s, t)
    ensures StageInv(t)
  {
    assert SlotFits(s, s.worker.i);
    SlotsStay(s, t);
    assert StageInv(t);
  }

  lemma FinishReadStage(s: State)
    requires StageInv(s) && CanFinishRead(s)
    ensures StageInv(FinishRead(s))
  {
    FinishReadEffect(s);
    hide StageInv, FinishRead, GivesUp, HandsOver;
    if s.worker.result.None? {
      GivesUpStage(s, FinishRead(s));
    } else {
      HandsOverStage(s, FinishRead(s));
    }
  }

  lemma RespondStage(s: State, c: nat, p: Payload)
    requires StageInv(s) && CanWriter(s, Rsp, c, Asked)
    ensures StageInv(Respond(s, c, p))
  {
    var t := Respond(s, c, p);
    CallMoves(s, t, c);
    assert StageInv(t);
  }

  lemma LeaveHandlerStage(s: State)
    requires StageInv(s) && CanLeaveHandler(s)
    ensures StageInv(LeaveHandler(s))
  {
    var t := LeaveHandler(s);
    SlotsStay(s, t);
    assert StageInv(t);
  }

  lemma FreeSlotStage(s: State)
    requires StageInv(s) && CanFree(s)
    ensures StageInv(FreeSlot(s))
  {
    var t := FreeSlot(s);
    assert SlotFits(s, s.watcher.i);
    SlotMoves(s, t, s.watcher.i, s.occ[s.watcher.i]);
    assert StageInv(t);
  }

  lemma DropRequestHandleStage(s: State)
    requires StageInv(s) && s.watcher.Freed?
    ensures StageInv(DropRequestHandle(s))
  {
    var t := DropRequestHandle(s);
    SlotsStay(s, t);
    assert StageInv(t);
  }

  lemma ResolveStage(s: State)
    requires StageInv(s) && s.watcher.Resolving?
    ensures StageInv(Resolve(s))
  {
    var t := Resolve(s);
    hide Resolve, Outcome;
    SlotsStay(s, t);
    assert StageInv(t);
  }

  lemma VanishStage(s: State, name: Name)
    requires StageInv(s) && name in s.names && s.names[name] !in s.held
    ensures StageInv(Vanish(s, name))
  {
    var t := Vanish(s, name);
    SlotsStay(s, t);
    assert StageInv(t);
  }

  lemma StageStep(s: State, a: Action)
    requires StageInv(s) && Enabled(s, a)
    ensures StageInv(Step(s, a))
  {
    match a
    case DoStart(id, p) =>
      StartStage(s, id, p);
    case DoClaim(c) =>
      ClaimStage(s, c);
    case DoRegister(c) =>
      RegisterStage(s, c);
    case DoDropStale(dir, c) =>
      DropStaleStage(s, dir, c);
    case DoWriteNext(dir, c) =>
      WriteNextStage(s, dir, c);
    case DoTryCreate(dir, c, fault) =>
      TryCreateStage(s, dir, c, fault);
    case DoFill(dir, c) =>
      FillStage(s, dir, c);
    case DoPublish(dir, c) =>
      PublishStage(s, dir, c);
    case DoAbort(dir, c) =>
      AbortStage(s, dir, c);
    case DoInsertHandle(dir, c) =>
      InsertHandleStage(s, dir, c);
    case DoSignal(dir, c) =>
      SignalStage(s, dir, c);
    case DoWake(dir, timeout) =>
      WakeStage(s, dir, timeout);
    case DoScan(dir) =>
      ScanStage(s, dir);
    case DoRead(dir) =>
      ReadStage(s, dir);
    case DoFinishRead =>
      FinishReadStage(s);
    case DoRespond(c, p) =>
      RespondStage(s, c, p);
    case DoLeaveHandler =>
      LeaveHandlerStage(s);
    case DoFree =>
      FreeSlotStage(s);
    case DoDropRequestHandle =>
      DropRequestHandleStage(s);
    case DoResolve =>
      ResolveStage(s);
    case DoVanish(name) =>
      VanishStage(s, name);
  }
}
