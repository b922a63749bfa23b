/** No wake-up is lost: a slot with work for a reader is always announced by an event still to
    come, an event already set, a scan that has not passed it, or a reader at work on it. */
module Wakeups {
  import opened Bytes
  import opened Layout
  import opened Slots
  import opened Protocol
  import opened Stages

  /** The current scan has yet to look at slot `i`. */
  predicate WillVisit(r: Reader, i: nat) {
    match r
    case Waiting => false
    case Scanning(j) => j <= i
    case other => other.i < i
  }

  predicate Announced(s: State, dir: Dir, i: nat)
    requires Shape(s) && i < s.g.numSlots
  {
    || (s.occ[i] < |s.calls| && !Ended(s.PhaseOf(dir, s.occ[i])))
    || EventOf(s, dir) > 0
    || WillVisit(ReaderOf(s, dir), i)
    || (Reading(ReaderOf(s, dir)) && ReaderOf(s, dir).i == i)
  }

  predicate SlotAwake(s: State, i: nat)
    requires Shape(s) && i < s.g.numSlots
  {
    && (s.status[i] == Ready ==> Announced(s, Req, i))
    && (s.status[i] == Done ==> Announced(s, Rsp, i))
  }

  ghost predicate WakeInv(s: State) {
    Shape(s) && forall i :: 0 <= i < s.g.numSlots ==> SlotAwake(s, i)
  }

  lemma StartWakeups(s: State, id: seq<byte>, p: Payload)
    requires StageInv(s) && WakeInv(s) && FreshId(s, id)
    ensures WakeInv(Start(s, id, p))
  {
    var t := Start(s, id, p);
    forall i | 0 <= i < s.g.numSlots ensures SlotAwake(t, i) {
      assert SlotAwake(s, i) && SlotFits(s, i);
    }
    assert WakeInv(t);
  }

  /** A slot whose status, occupant's progress, readers and events stay as they are. */
  lemma StaysAwake(s: State, t: State, i: nat)
    requires Shape(s) && Shape(t) && t.g == s.g && i < s.g.numSlots && SlotAwake(s, i)
    requires t.status[i] == s.status[i] && t.occ[i] == s.occ[i] && |t.calls| == |s.calls|
    requires t.worker == s.worker && t.watcher == s.watcher && t.reqEvent == s.reqEvent && t.rspEvent == s.rspEvent
    requires s.occ[i] < |s.calls| && (s.status[i] == Ready || s.status[i] == Done) ==>
               t.PhaseOf(Req, s.occ[i]) == s.PhaseOf(Req, s.occ[i])
               && t.PhaseOf(Rsp, s.occ[i]) == s.PhaseOf(Rsp, s.occ[i])
    ensures SlotAwake(t, i)
  {
    hide WillVisit;
  }

  lemma TakesWakeups(s: State, t: State, c: nat, j: nat)
    requires StageInv(s) && WakeInv(s) && c < |s.calls| && s.calls[c].stage == Before && j < s.g.numSlots
    requires Takes(s, t, c, j)
    ensures WakeInv(t)
  {
    forall i | 0 <= i < s.g.numSlots ensures SlotAwake(t, i) {
      assert SlotAwake(s, i) && SlotFits(s, i);
      hide StageInv, WakeInv, SlotAwake;
      if i == j {
        TakenAwake(t, i);
      } else {
        StaysAwake(s, t, i);
      }
    }
  }

  lemma TakenAwake(t: State, i: nat)
    requires Shape(t) && i < t.g.numSlots && t.status[i] != Ready && t.status[i] != Done
    ensures SlotAwake(t, i)
  {
  }

  lemma MovesOnWakeups(s: State, t: State, c: nat)
    requires StageInv(s) && WakeInv(s) && CanClaim(s, c) && s.calls[c].stage == Before && MovesOn(s, t, c)
    ensures WakeInv(t)
  {
    assert t.status == s.status;
    forall i | 0 <= i < s.g.numSlots ensures SlotAwake(t, i) {
      assert SlotAwake(s, i) && SlotFits(s, i);
      hide StageInv, WakeInv, SlotAwake;
      StaysAwake(s, t, i);
    }
  }

  lemma ClaimWakeups(s: State, c: nat)
    requires StageInv(s) && WakeInv(s) && CanClaim(s, c)
    ensures WakeInv(Claim(s, c))
  {
    ClaimEffect(s, c);
    hide StageInv, WakeInv, Claim, Takes, MovesOn;
    if ClaimSucceeds(s, c) {
      TakesWakeups(s, Claim(s, c), c, s.calls[c].req.phase.next);
    } else {
      MovesOnWakeups(s, Claim(s, c), c);
    }
  }

  lemma RegisterWakeups(s: State, c: nat)
    requires StageInv(s) && WakeInv(s) && CanRegister(s, c)
    ensures WakeInv(Register(s, c))
  {
    var t := Register(s, c);
    forall i | 0 <= i < s.g.numSlots ensures SlotAwake(t, i) {
      assert SlotAwake(s, i) && SlotFits(s, i);
    }
    assert WakeInv(t);
  }

  lemma DropStaleWakeups(s: State, dir: Dir, c: nat)
    requires StageInv(s) && WakeInv(s) && CanWriter(s, dir, c, Dropping)
    ensures WakeInv(DropStale(s, dir, c))
  {
    var t := DropStale(s, dir, c);
    forall i | 0 <= i < s.g.numSlots ensures SlotAwake(t, i) {
      assert SlotAwake(s, i) && SlotFits(s, i);
    }
    assert WakeInv(t);
  }

  lemma WriteNextWakeups(s: State, dir: Dir, c: nat)
    requires StageInv(s) && WakeInv(s) && CanWriteNext(s, dir, c)
    ensures WakeInv(WriteNext(s, dir, c))
  {
    var t := WriteNext(s, dir, c);
    hide WriteNext, ProgramOf;
    forall i | 0 <= i < s.g.numSlots ensures SlotAwake(t, i) {
      assert SlotAwake(s, i) && SlotFits(s, i);
    }
    assert WakeInv(t);
  }

  lemma TryCreateWakeups(s: State, dir: Dir, c: nat, fault: bool)
    requires StageInv(s) && WakeInv(s) && CanTryCreate(s, dir, c)
    ensures WakeInv(TryCreate(s, dir, c, fault))
  {
    var t := TryCreate(s, dir, c, fault);
    hide TryCreate;
    forall i | 0 <= i < s.g.numSlots ensures SlotAwake(t, i) {
      assert SlotAwake(s, i) && SlotFits(s, i);
    }
    assert WakeInv(t);
  }

  lemma FillWakeups(s: State, dir: Dir, c: nat)
    requires StageInv(s) && WakeInv(s) && CanFill(s, dir, c)
    ensures WakeInv(Fill(s, dir, c))
  {
    var t := Fill(s, dir, c);
    forall i | 0 <= i < s.g.numSlots ensures SlotAwake(t, i) {
      assert SlotAwake(s, i) && SlotFits(s, i);
    }
    assert WakeInv(t);
  }

  lemma PublishWakeups(s: State, dir: Dir, c: nat)
    requires StageInv(s) && WakeInv(s) && CanPublish(s, dir, c)
    ensures WakeInv(Publish(s, dir, c))
  {
    var t := Publish(s, dir, c);
    hide ProgramOf;
    forall i | 0 <= i < s.g.numSlots ensures SlotAwake(t, i) {
      assert SlotAwake(s, i) && SlotFits(s, i);
    }
    assert WakeInv(t);
  }

  lemma AbortWakeups(s: State, dir: Dir, c: nat)
    requires StageInv(s) && WakeInv(s) && CanWriter(s, dir, c, Aborting)
    ensures WakeInv(Abort(s, dir, c))
  {
    var t := Abort(s, dir, c);
    forall i | 0 <= i < s.g.numSlots ensures SlotAwake(t, i) {
      assert SlotAwake(s, i) && SlotFits(s, i);
    }
    assert WakeInv(t);
  }

  lemma InsertHandleWakeups(s: State, dir: Dir, c: nat)
    requires StageInv(s) && WakeInv(s) && CanWriter(s, dir, c, Inserting)
    ensures WakeInv(InsertHandle(s, dir, c))
  {
    var t := InsertHandle(s, dir, c);
    hide InsertHandle;
    forall i | 0 <= i < s.g.numSlots ensures SlotAwake(t, i) {
      assert SlotAwake(s, i) && SlotFits(s, i);
    }
    assert WakeInv(t);
  }

  lemma SignalWakeups(s: State, dir: Dir, c: nat)
    requires StageInv(s) && WakeInv(s) && CanWriter(s, dir, c, Signalling)
    ensures WakeInv(Signal(s, dir, c))
  {
    var t := Signal(s, dir, c);
    forall i | 0 <= i < s.g.numSlots ensures SlotAwake(t, i) {
      assert SlotAwake(s, i) && SlotFits(s, i);
    }
    assert WakeInv(t);
  }

  lemma WakeWakeups(s: State, dir: Dir, timeout: bool)
    requires StageInv(s) && WakeInv(s) && CanWake(s, dir, timeout)
    ensures WakeInv(Wake(s, dir, timeout))
  {
    var t := Wake(s, dir, timeout);
    forall i | 0 <= i < s.g.numSlots ensures SlotAwake(t, i) {
      assert SlotAwake(s, i) && SlotFits(s, i);
    }
    assert WakeInv(t);
  }

  lemma ScanTakesWakeups(s: State, t: State, j: nat)
    requires StageInv(s) && WakeInv(s) && s.worker == Scanning(j) && j < s.g.numSlots && Claims(s, t, j)
    ensures WakeInv(t)
  {
    forall i | 0 <= i < s.g.numSlots ensures SlotAwake(t, i) {
      assert SlotAwake(s, i);
      hide StageInv, WakeInv;
    }
  }

  lemma LooksOnWakeups(s: State, t: State, dir: Dir)
    requires WakeInv(s) && CanScan(s, dir) && LooksOn(s, t, dir)
    ensures WakeInv(t)
  {
    forall i | 0 <= i < s.g.numSlots ensures SlotAwake(t, i) {
      assert SlotAwake(s, i);
      hide WakeInv;
    }
  }

  lemma ScanWakeups(s: State, dir: Dir)
    requires StageInv(s) && WakeInv(s) && CanScan(s, dir)
    ensures WakeInv(Scan(s, dir))
  {
    ScanEffect(s, dir);
    hide StageInv, WakeInv, Scan, Claims, LooksOn;
    if ScanTakes(s, dir) {
      ScanTakesWakeups(s, Scan(s, dir), ReaderOf(s, dir).i);
    } else {
      LooksOnWakeups(s, Scan(s, dir), dir);
    }
  }

  lemma ReadWakeups(s: State, dir: Dir)
    requires StageInv(s) && WakeInv(s) && CanRead(s, dir)
    ensures WakeInv(Read(s, dir))
  {
    var t := Read(s, dir);
    hide Read;
    forall i | 0 <= i < s.g.numSlots ensures SlotAwake(t, i) {
      assert SlotAwake(s, i) && SlotFits(s, i);
    }
    assert WakeInv(t);
  }

  lemma GivesUpWakeups(s: State, t: State)
    requires WakeInv(s) && CanFinishRead(s) && s.status[s.worker.i] == Claimed && GivesUp(s, t)
    ensures WakeInv(t)
  {
    forall i | 0 <= i < s.g.numSlots ensures SlotAwake(t, i) {
      assert SlotAwake(s, i);
      hide WakeInv;
    }
  }

  lemma HandsOverWakeups(s: State, t: State)
    requires StageInv(s) && WakeInv(s) && CanFinishRead(s) && s.worker.result.Some? && HandsOver(s, t)
    requires s.status[s.worker.i] == Claimed && s.calls[s.occ[s.worker.i]].slot == s.worker.i
    ensures WakeInv(t)
  {
    forall i | 0 <= i < s.g.numSlots ensures SlotAwake(t, i) {
      assert SlotAwake(s, i) && SlotFits(s, i);
      hide WakeInv, StageInv;
    }
  }

  lemma FinishReadWakeups(s: State)
    requires StageInv(s) && WakeInv(s) && CanFinishRead(s)
    ensures WakeInv(FinishRead(s))
  {
    FinishReadEffect(s);
    hide StageInv, WakeInv, FinishRead, GivesUp, HandsOver;
    if s.worker.result.None? {
      GivesUpWakeups(s, FinishRead(s));
    } else {
      HandsOverWakeups(s, FinishRead(s));
    }
  }

  lemma RespondWakeups(s: State, c: nat, p: Payload)
    requires StageInv(s) && WakeInv(s) && CanWriter(s, Rsp, c, Asked)
    ensures WakeInv(Respond(s, c, p))
  {
    var t := Respond(s, c, p);
    forall i | 0 <= i < s.g.numSlots ensures SlotAwake(t, i) {
      assert SlotAwake(s, i) && SlotFits(s, i);
    }
    assert WakeInv(t);
  }

  lemma LeaveHandlerWakeups(s: State)
    requires StageInv(s) && WakeInv(s) && CanLeaveHandler(s)
    ensures WakeInv(LeaveHandler(s))
  {
    var t := LeaveHandler(s);
    forall i | 0 <= i < s.g.numSlots ensures SlotAwake(t, i) {
      assert SlotAwake(s, i) && SlotFits(s, i);
    }
    assert WakeInv(t);
  }

  lemma FreeSlotWakeups(s: State)
    requires StageInv(s) && WakeInv(s) && CanFree(s)
    ensures WakeInv(FreeSlot(s))
  {
    var t := FreeSlot(s);
    FreeEffect(s);
    hide FreeSlot;
    forall i | 0 <= i < s.g.numSlots ensures SlotAwake(t, i) {
      assert SlotAwake(s, i) && SlotFits(s, i);
    }
    assert WakeInv(t);
  }

  lemma DropRequestHandleWakeups(s: State)
    requires StageInv(s) && WakeInv(s) && s.watcher.Freed?
    ensures WakeInv(DropRequestHandle(s))
  {
    var t := DropRequestHandle(s);
    forall i | 0 <= i < s.g.numSlots ensures SlotAwake(t, i) {
      assert SlotAwake(s, i) && SlotFits(s, i);
    }
    assert WakeInv(t);
  }

  lemma ResolveWakeups(s: State)
    requires StageInv(s) && WakeInv(s) && s.watcher.Resolving?
    ensures WakeInv(Resolve(s))
  {
    var t := Resolve(s);
    hide Resolve, Outcome;
    forall i | 0 <= i < s.g.numSlots ensures SlotAwake(t, i) {
      assert SlotAwake(s, i) && SlotFits(s, i);
    }
    assert WakeInv(t);
  }

  lemma VanishWakeups(s: State, name: Name)
    requires StageInv(s) && WakeInv(s) && name in s.names && s.names[name] !in s.held
    ensures WakeInv(Vanish(s, name))
  {
    var t := Vanish(s, name);
    forall i | 0 <= i < s.g.numSlots ensures SlotAwake(t, i) {
      assert SlotAwake(s, i) && SlotFits(s, i);
    }
    assert WakeInv(t);
  }

  lemma WakeupsStep(s: State, a: Action)
    requires StageInv(s) && WakeInv(s) && Enabled(s, a)
    ensures WakeInv(Step(s, a))
  {
    match a
    case DoStart(id, p) =>
      StartWakeups(s, id, p);
    case DoClaim(c) =>
      ClaimWakeups(s, c);
    case DoRegister(c) =>
      RegisterWakeups(s, c);
    case DoDropStale(dir, c) =>
      DropStaleWakeups(s, dir, c);
    case DoWriteNext(dir, c) =>
      WriteNextWakeups(s, dir, c);
    case DoTryCreate(dir, c, fault) =>
      TryCreateWakeups(s, dir, c, fault);
    case DoFill(dir, c) =>
      FillWakeups(s, dir, c);
    case DoPublish(dir, c) =>
      PublishWakeups(s, dir, c);
    case DoAbort(dir, c) =>
      AbortWakeups(s, dir, c);
    case DoInsertHandle(dir, c) =>
      InsertHandleWakeups(s, dir, c);
    case DoSignal(dir, c) =>
      SignalWakeups(s, dir, c);
    case DoWake(dir, timeout) =>
      WakeWakeups(s, dir, timeout);
    case DoScan(dir) =>
      ScanWakeups(s, dir);
    case DoRead(dir) =>
      ReadWakeups(s, dir);
    case DoFinishRead =>
      FinishReadWakeups(s);
    case DoRespond(c, p) =>
      RespondWakeups(s, c, p);
    case DoLeaveHandler =>
      LeaveHandlerWakeups(s);
    case DoFree =>
      FreeSlotWakeups(s);
    case DoDropRequestHandle =>
      DropRequestHandleWakeups(s);
    case DoResolve =>
      ResolveWakeups(s);
    case DoVanish(name) =>
      VanishWakeups(s, name);
  }
}
