/** End-to-end delivery: who gets which response, how often, and where every request is. */
module Delivery {
  import opened Bytes
  import opened Layout
  import opened Slots
  import opened Protocol
  import opened Stages
  import opened Memory
  import opened Regions
  import opened Readers
  import opened Pending
  import opened Wakeups
  import opened SyncHandlers
  import opened Runs

  predicate Answered(call: Call) {
    call.rsp.phase != Idle && call.rsp.phase != Asked
  }

  /** What a step may do to a request that is not answering it: data given once stays as given, and
      a resolved receiver stays resolved. */
  predicate Evolves(x: Call, y: Call) {
    && y.id == x.id && y.req.payload == x.req.payload
    && Answered(y) == Answered(x)
    && (Answered(x) ==> y.rsp.payload == x.rsp.payload)
    && (x.receiver.Some? ==> y.receiver == x.receiver)
  }

  /** A call that has left `claim_free_slot` does not come back to it, and only its own claim steps
      move it along there. */
  predicate Looks(x: Call, y: Call) {
    y.req.phase.Looking? ==> y.req.phase == x.req.phase
  }

  predicate AnswersNow(x: Call, y: Call, p: Payload) {
    y == x.(rsp := x.rsp.(payload := p, phase := Dropping)) && !Answered(x)
  }

  // ---- One step -------------------------------------------------------------------------------------

  predicate WriterMove(a: Action) {
    a.DoStart? || a.DoRegister? || a.DoDropStale?
  }

  predicate RegionMove(a: Action) {
    a.DoTryCreate? || a.DoFill? || a.DoInsertHandle?
  }

  predicate ReaderMove(a: Action) {
    a.DoLeaveHandler? || a.DoDropRequestHandle? || a.DoVanish?
  }

  lemma WriterMoveEvolves(s: State, a: Action, d: nat)
    requires Shape(s) && Enabled(s, a) && d < |s.calls| && WriterMove(a)
    ensures var t := Step(s, a); d < |t.calls| && Evolves(s.calls[d], t.calls[d]) && Looks(s.calls[d], t.calls[d])
  {
    hide ProgramOf, DropHandleOf;
  }

  lemma RegionMoveEvolves(s: State, a: Action, d: nat)
    requires Shape(s) && Enabled(s, a) && d < |s.calls| && RegionMove(a)
    ensures var t := Step(s, a); d < |t.calls| && Evolves(s.calls[d], t.calls[d]) && Looks(s.calls[d], t.calls[d])
  {
    hide TryCreate, InsertHandle, ProgramOf, FilledPages;
  }

  lemma PublishEvolves(s: State, dir: Dir, c: nat, d: nat)
    requires Shape(s) && CanPublish(s, dir, c) && d < |s.calls|
    ensures var t := Publish(s, dir, c);
            d < |t.calls| && Evolves(s.calls[d], t.calls[d]) && Looks(s.calls[d], t.calls[d])
  {
    hide ProgramOf, Evolves, Looks;
    PhaseEvolves(s.calls[c], dir, Inserting, In(PublishedStatus(dir)));
    EvolvesSame(s.calls[d]);
  }

  lemma AbortEvolves(s: State, dir: Dir, c: nat, d: nat)
    requires Shape(s) && CanWriter(s, dir, c, Aborting) && d < |s.calls|
    ensures var t := Abort(s, dir, c); d < |t.calls| && Evolves(s.calls[d], t.calls[d]) && Looks(s.calls[d], t.calls[d])
  {
    hide Evolves, Looks;
    PhaseEvolves(s.calls[c], dir, Refused, After(if dir == Req then RequestRefused else ResponseRefused));
    EvolvesSame(s.calls[d]);
  }

  lemma SignalEvolves(s: State, dir: Dir, c: nat, d: nat)
    requires Shape(s) && CanWriter(s, dir, c, Signalling) && d < |s.calls|
    ensures var t := Signal(s, dir, c);
            d < |t.calls| && Evolves(s.calls[d], t.calls[d]) && Looks(s.calls[d], t.calls[d])
  {
    hide Evolves, Looks;
    PhaseEvolves(s.calls[c], dir, Returned, s.calls[c].stage);
    EvolvesSame(s.calls[d]);
  }

  lemma PhaseEvolves(call: Call, dir: Dir, phase: Phase, stage: Stage)
    requires WriterOf(call, dir).phase != Idle && WriterOf(call, dir).phase != Asked && phase != Idle && phase != Asked
    requires !phase.Looking?
    ensures Evolves(call, WithPhase(call, dir, phase).(stage := stage))
    ensures Looks(call, WithPhase(call, dir, phase).(stage := stage))
  {
  }

  lemma EvolvesSame(call: Call)
    ensures Evolves(call, call) && Looks(call, call)
  {
  }

  lemma ClaimEvolves(s: State, c: nat, d: nat)
    requires Shape(s) && CanClaim(s, c) && d < |s.calls|
    ensures var t := Claim(s, c);
            d < |t.calls| && Evolves(s.calls[d], t.calls[d]) && (d != c ==> Looks(s.calls[d], t.calls[d]))
  {
  }

  lemma WriteEvolves(s: State, dir: Dir, c: nat, d: nat)
    requires Shape(s) && CanWriteNext(s, dir, c) && d < |s.calls|
    ensures var t := WriteNext(s, dir, c);
            d < |t.calls| && Evolves(s.calls[d], t.calls[d]) && Looks(s.calls[d], t.calls[d])
  {
    hide WriteNext, ProgramOf;
  }

  lemma ReaderMoveEvolves(s: State, a: Action, d: nat)
    requires Shape(s) && Enabled(s, a) && d < |s.calls| && ReaderMove(a)
    ensures var t := Step(s, a); d < |t.calls| && Evolves(s.calls[d], t.calls[d]) && Looks(s.calls[d], t.calls[d])
  {
    hide DropHandleOf;
  }

  lemma ReadEvolves(s: State, dir: Dir, d: nat)
    requires Shape(s) && CanRead(s, dir) && d < |s.calls|
    ensures var t := Read(s, dir); d < |t.calls| && Evolves(s.calls[d], t.calls[d]) && Looks(s.calls[d], t.calls[d])
  {
    hide Read;
  }

  lemma WakeEvolves(s: State, dir: Dir, timeout: bool, d: nat)
    requires Shape(s) && CanWake(s, dir, timeout) && d < |s.calls|
    ensures var t := Wake(s, dir, timeout);
            d < |t.calls| && Evolves(s.calls[d], t.calls[d]) && Looks(s.calls[d], t.calls[d])
  {
  }

  lemma ScanEvolves(s: State, dir: Dir, d: nat)
    requires Shape(s) && CanScan(s, dir) && d < |s.calls|
    ensures var t := Scan(s, dir); d < |t.calls| && Evolves(s.calls[d], t.calls[d]) && Looks(s.calls[d], t.calls[d])
  {
  }

  lemma FinishReadEvolves(s: State, d: nat)
    requires StageInv(s) && CanFinishRead(s) && d < |s.calls|
    ensures var t := FinishRead(s); d < |t.calls| && Evolves(s.calls[d], t.calls[d]) && Looks(s.calls[d], t.calls[d])
  {
    OccupantReading(s);
    hide StageInv;
  }

  lemma FreeEvolves(s: State, d: nat)
    requires StageInv(s) && CanFree(s) && d < |s.calls|
    ensures var t := FreeSlot(s); d < |t.calls| && Evolves(s.calls[d], t.calls[d]) && Looks(s.calls[d], t.calls[d])
  {
    FreeEffect(s);
    hide StageInv, FreeSlot;
  }

  lemma OpenTarget(s: State)
    requires Inv(s) && s.watcher.Resolving?
    ensures s.watcher.id in s.pending ==>
              s.pending[s.watcher.id] < |s.calls| && s.calls[s.pending[s.watcher.id]].receiver.None?
  {
    ResolveTarget(s);
    hide StageInv, MemInv, RegionInv, ReaderInv;
  }

  lemma OnlyOpenResolved(s: State)
    requires s.watcher.Resolving?
    requires s.watcher.id in s.pending ==>
               s.pending[s.watcher.id] < |s.calls| && s.calls[s.pending[s.watcher.id]].receiver.None?
    ensures forall d :: 0 <= d < |s.calls| && s.calls[d].receiver.Some? ==>
              Resolve(s).calls[d].receiver == s.calls[d].receiver
  {
  }

  lemma StageEvolves(call: Call, stage: Stage, receiver: Option<Payload>)
    requires call.receiver.Some? ==> receiver == call.receiver
    ensures Evolves(call, call.(stage := stage, receiver := receiver))
    ensures Looks(call, call.(stage := stage, receiver := receiver))
  {
  }

  lemma ResolveEvolves(s: State, d: nat)
    requires Inv(s) && s.watcher.Resolving? && d < |s.calls|
    ensures var t := Resolve(s); d < |t.calls| && Evolves(s.calls[d], t.calls[d]) && Looks(s.calls[d], t.calls[d])
  {
    OpenTarget(s);
    var t := Resolve(s);
    hide Inv, Resolve, Outcome, Evolves, Looks;
    OnlyOpenResolved(s);
    StageEvolves(s.calls[d], t.calls[d].stage, t.calls[d].receiver);
  }

  lemma RespondEvolves(s: State, c: nat, p: Payload, d: nat)
    requires Shape(s) && CanWriter(s, Rsp, c, Asked) && d < |s.calls|
    ensures var t := Respond(s, c, p);
            d < |t.calls| && (if c == d then AnswersNow(s.calls[d], t.calls[d], p) else Evolves(s.calls[d], t.calls[d]))
            && Looks(s.calls[d], t.calls[d])
  {
  }

  lemma StepEvolves(s: State, a: Action, d: nat)
    requires Inv(s) && Enabled(s, a) && d < |s.calls|
    ensures var t := Step(s, a);
            d < |t.calls|
            && (Evolves(s.calls[d], t.calls[d])
                || (a.DoRespond? && a.c == d && AnswersNow(s.calls[d], t.calls[d], a.p)))
    ensures a != DoClaim(d) ==> Looks(s.calls[d], Step(s, a).calls[d])
  {
    hide Evolves, Looks, AnswersNow, MemInv, RegionInv, ReaderInv, PendingInv, WakeInv, SyncInv;
    match a
    case DoClaim(c) => ClaimEvolves(s, c, d);
    case DoWriteNext(dir, c) => WriteEvolves(s, dir, c, d);
    case DoRespond(c, p) => RespondEvolves(s, c, p, d);
    case DoWake(dir, timeout) => WakeEvolves(s, dir, timeout, d);
    case DoRead(dir) => ReadEvolves(s, dir, d);
    case DoScan(dir) => ScanEvolves(s, dir, d);
    case DoFinishRead => FinishReadEvolves(s, d);
    case DoFree => FreeEvolves(s, d);
    case DoResolve => ResolveEvolves(s, d);
    case DoPublish(dir, c) => PublishEvolves(s, dir, c, d);
    case DoAbort(dir, c) => AbortEvolves(s, dir, c, d);
    case DoSignal(dir, c) => SignalEvolves(s, dir, c, d);
    case _ =>
      hide Inv;
      if WriterMove(a) {
        WriterMoveEvolves(s, a, d);
      } else if RegionMove(a) {
        RegionMoveEvolves(s, a, d);
      } else {
        ReaderMoveEvolves(s, a, d);
      }
  }

  // ---- Runs -----------------------------------------------------------------------------------------

  /** Call `c` was begun by this step of the run, with this id and payload. */
  ghost predicate Started(run: seq<State>, acts: seq<Action>, k: nat, c: nat, id: seq<byte>, p: Payload)
    requires k <= |acts| < |run|
  {
    exists j :: 0 <= j < k && acts[j] == DoStart(id, p) && |run[j].calls| == c
  }

  /** The handler of call `c` called `send_response` with this payload. */
  ghost predicate Responded(acts: seq<Action>, k: nat, c: nat, p: Payload)
    requires k <= |acts|
  {
    exists j :: 0 <= j < k && acts[j] == DoRespond(c, p)
  }

  /** One step of a run, seen by a request begun before it. */
  lemma RunEvolves(run: seq<State>, acts: seq<Action>, k: nat, c: nat)
    requires IsRun(run, acts) && k < |acts| && c < |run[k].calls|
    ensures c < |run[k + 1].calls|
    ensures Evolves(run[k].calls[c], run[k + 1].calls[c])
            || (acts[k].DoRespond? && acts[k].c == c && AnswersNow(run[k].calls[c], run[k + 1].calls[c], acts[k].p))
  {
    RunInv(run, acts, k);
    RunStep(run, acts, k);
    hide IsRun, Inv, Step, Enabled, Evolves, AnswersNow;
    StepEvolves(run[k], acts[k], c);
  }

  /** Requests are only ever added, one per start. */
  lemma RunStarts(run: seq<State>, acts: seq<Action>, k: nat)
    requires IsRun(run, acts) && k < |acts|
    ensures var s, a, t := run[k], acts[k], run[k + 1];
            if a.DoStart? then |t.calls| == |s.calls| + 1 && t.calls[|s.calls|].id == a.id
               && t.calls[|s.calls|].req.payload == a.p && !Answered(t.calls[|s.calls|])
            else |t.calls| == |s.calls|
  {
    RunStep(run, acts, k);
    hide IsRun, Step, Enabled;
    NewCall(run[k], acts[k]);
  }

  lemma StartedNow(run: seq<State>, acts: seq<Action>, k: nat, c: nat, id: seq<byte>, p: Payload)
    requires k < |acts| < |run| && acts[k] == DoStart(id, p) && |run[k].calls| == c
    ensures Started(run, acts, k + 1, c, id, p)
  {
  }

  lemma RespondedNow(acts: seq<Action>, k: nat, c: nat, p: Payload)
    requires k < |acts| && acts[k] == DoRespond(c, p)
    ensures Responded(acts, k + 1, c, p)
  {
  }

  lemma StillStarted(run: seq<State>, acts: seq<Action>, k: nat, c: nat, id: seq<byte>, p: Payload)
    requires k < |acts| < |run| && Started(run, acts, k, c, id, p)
    ensures Started(run, acts, k + 1, c, id, p)
  {
  }

  lemma StillResponded(acts: seq<Action>, k: nat, c: nat, p: Payload)
    requires k < |acts| && Responded(acts, k, c, p)
    ensures Responded(acts, k + 1, c, p)
  {
  }

  /** Where a request's data comes from: the payload and id from the step that began it, the response
      from the step that answered it. */
  lemma {:induction false} History(run: seq<State>, acts: seq<Action>, k: nat, c: nat)
    requires IsRun(run, acts) && k < |run| && c < |run[k].calls|
    ensures Started(run, acts, k, c, run[k].calls[c].id, run[k].calls[c].req.payload)
    ensures Answered(run[k].calls[c]) ==> Responded(acts, k, c, run[k].calls[c].rsp.payload)
  {
    assert |run| == |acts| + 1;
    if k == 0 {
      assert false;
    } else {
      var j := k - 1;
      var call := run[k].calls[c];
      RunStarts(run, acts, j);
      hide Started, Responded;
      if c < |run[j].calls| {
        History(run, acts, j, c);
        RunEvolves(run, acts, j, c);
        hide IsRun;
        StillStarted(run, acts, j, c, call.id, call.req.payload);
        if Answered(run[j].calls[c]) {
          StillResponded(acts, j, c, call.rsp.payload);
        } else if Answered(call) {
          RespondedNow(acts, j, c, call.rsp.payload);
        }
      } else {
        hide IsRun;
        StartedNow(run, acts, j, c, call.id, call.req.payload);
      }
    }
  }

  lemma NewCall(s: State, a: Action)
    requires Shape(s) && Enabled(s, a)
    ensures var t := Step(s, a);
            if a.DoStart? then |t.calls| == |s.calls| + 1 && t.calls[|s.calls|].id == a.id
               && t.calls[|s.calls|].req.payload == a.p && !Answered(t.calls[|s.calls|])
            else |t.calls| == |s.calls|
  {
    hide Claim, Register, DropStale, WriteNext, TryCreate, Fill, Publish, Abort, InsertHandle, Signal, Wake, Scan,
      Read, FinishRead, Respond, LeaveHandler, FreeSlot, DropRequestHandle, Resolve, Vanish, ProgramOf;
  }

  /** What a resolved receiver and a called handler hold, in terms of the request's own payloads. */
  lemma DeliveredCall(s: State, c: nat)
    requires StageInv(s) && ReaderInv(s) && PendingInv(s) && c < |s.calls|
    ensures s.calls[c].rsp.phase != Idle ==>
              s.calls[c].seen == Some((s.calls[c].id, Received(Req, s.calls[c].req.payload)))
    ensures s.calls[c].receiver.Some? ==>
              Answered(s.calls[c]) && s.calls[c].receiver == Some(Received(Rsp, s.calls[c].rsp.payload))
  {
    assert CallPending(s, c) && CallFits(s, c) && SeenOk(s.calls[c]);
    ReceivedIdExact(s.calls[c].id);
    hide StageInv, ReaderInv, PendingInv, Received, ReceivedId;
  }

  /** Every response that reaches a receiver is, up to the field-width casts, the one that the handler
      of the same dispatch gave to `send_response`; and that handler had been given, up to the casts,
      the payload and the id of that very dispatch. */
  lemma EndToEnd(run: seq<State>, acts: seq<Action>, k: nat, c: nat)
    requires IsRun(run, acts) && k < |run| && c < |run[k].calls| && run[k].calls[c].receiver.Some?
    ensures exists id, q, r ::
              && Started(run, acts, k, c, id, q) && Responded(acts, k, c, r)
              && run[k].calls[c].seen == Some((id, Received(Req, q)))
              && run[k].calls[c].receiver == Some(Received(Rsp, r))
              && (WithinLimits(Req, q) ==> Received(Req, q) == q)
              && (WithinLimits(Rsp, r) ==> Received(Rsp, r) == r)
  {
    var call := run[k].calls[c];
    RunInv(run, acts, k);
    History(run, acts, k, c);
    DeliveredCall(run[k], c);
    ReceivedExact(Req, call.req.payload);
    ReceivedExact(Rsp, call.rsp.payload);
    hide IsRun, StageInv, MemInv, RegionInv, ReaderInv, PendingInv, Received, WithinLimits;
  }

  /** A handler is only ever given the payload of the dispatch whose id it is told. */
  lemma HandlersSeeTheirRequest(run: seq<State>, acts: seq<Action>, k: nat, c: nat)
    requires IsRun(run, acts) && k < |run| && c < |run[k].calls| && run[k].calls[c].rsp.phase != Idle
    ensures exists id, q :: Started(run, acts, k, c, id, q) && run[k].calls[c].seen == Some((id, Received(Req, q)))
  {
    RunInv(run, acts, k);
    History(run, acts, k, c);
    DeliveredCall(run[k], c);
    hide IsRun, StageInv, MemInv, RegionInv, ReaderInv, PendingInv, Received;
  }

  predicate Kept(x: Call, y: Call) {
    (x.receiver.Some? ==> y.receiver == x.receiver) && (Answered(x) ==> Answered(y))
  }

  lemma {:induction false} KeptAlong(run: seq<State>, acts: seq<Action>, j: nat, k: nat, c: nat)
    requires IsRun(run, acts) && j <= k < |run| && c < |run[j].calls|
    ensures c < |run[k].calls| && Kept(run[j].calls[c], run[k].calls[c])
    decreases k
  {
    if j < k {
      KeptAlong(run, acts, j, k - 1, c);
      RunEvolves(run, acts, k - 1, c);
      hide IsRun;
    }
  }

  /** The request whose receiver a delivering step of the watcher sends to. */
  predicate Delivers(s: State, a: Action, c: nat) {
    a == DoResolve && s.watcher.Resolving? && Outcome(s) == Delivered && s.pending[s.watcher.id] == c
  }

  lemma DeliversTo(s: State, c: nat)
    requires Inv(s) && Delivers(s, DoResolve, c)
    ensures c < |s.calls| && s.calls[c].receiver.None?
    ensures c < |Resolve(s).calls| && Resolve(s).calls[c].receiver.Some?
  {
    OpenTarget(s);
    hide Inv;
  }

  lemma StepDelivers(s: State, a: Action, c: nat)
    requires Inv(s) && Enabled(s, a) && Delivers(s, a, c)
    ensures c < |s.calls| && s.calls[c].receiver.None?
    ensures c < |Step(s, a).calls| && Step(s, a).calls[c].receiver.Some?
  {
    DeliversTo(s, c);
    hide Inv, Resolve, Outcome;
  }

  lemma RunDelivers(run: seq<State>, acts: seq<Action>, j: nat, c: nat)
    requires IsRun(run, acts) && j < |acts| && Delivers(run[j], acts[j], c)
    ensures c < |run[j].calls| && run[j].calls[c].receiver.None?
    ensures c < |run[j + 1].calls| && run[j + 1].calls[c].receiver.Some?
  {
    RunInv(run, acts, j);
    RunStep(run, acts, j);
    hide IsRun, Inv, Step, Enabled, Delivers;
    StepDelivers(run[j], acts[j], c);
  }

  /** A receiver is sent to at most once: two delivering steps of a run resolve different requests. */
  lemma ResolvedOnce(run: seq<State>, acts: seq<Action>, j: nat, k: nat, c: nat, d: nat)
    requires IsRun(run, acts) && j < k < |acts| && Delivers(run[j], acts[j], c) && Delivers(run[k], acts[k], d)
    ensures c != d
  {
    RunDelivers(run, acts, j, c);
    RunDelivers(run, acts, k, d);
    if c == d {
      KeptAlong(run, acts, j + 1, k, c);
    }
    hide IsRun, Delivers;
  }

  /** And what it was sent, it keeps. */
  lemma ResolvedKept(run: seq<State>, acts: seq<Action>, j: nat, k: nat, c: nat)
    requires IsRun(run, acts) && j <= k < |run| && c < |run[j].calls| && run[j].calls[c].receiver.Some?
    ensures c < |run[k].calls| && run[k].calls[c].receiver == run[j].calls[c].receiver
  {
    KeptAlong(run, acts, j, k, c);
  }

  /** A handler gets to answer a request at most once. */
  lemma RespondedOnce(run: seq<State>, acts: seq<Action>, j: nat, k: nat)
    requires IsRun(run, acts) && j < k < |acts| && acts[j].DoRespond? && acts[k].DoRespond?
    ensures acts[j].c != acts[k].c
  {
    if acts[j].c == acts[k].c {
      RunStep(run, acts, j);
      RunStep(run, acts, k);
      KeptAlong(run, acts, j + 1, k, acts[j].c);
    }
  }

  // ---- Where a request is ---------------------------------------------------------------------------

  ghost predicate InSlot(s: State, c: nat)
    requires Shape(s)
  {
    exists i ::
      0 <= i < s.g.numSlots && s.occ[i] == c && (s.status[i] == Ready || s.status[i] == Claimed || s.status[i] == Done)
  }

  predicate BeingDelivered(s: State, c: nat) {
    (s.watcher.Freed? || s.watcher.Resolving?) && s.watcher.c == c
  }

  /** The four ways a published request ends without a response: worker read error, response write
      error, watcher read error, no pending entry. */
  predicate Lost(call: Call) {
    call.stage == After(RequestUnread) || call.stage == After(ResponseRefused)
    || call.stage == After(ResponseUnread) || call.stage == After(Unclaimed)
  }

  predicate ExactlyOne(a: bool, b: bool, c: bool, d: bool) {
    (if a then 1 else 0) + (if b then 1 else 0) + (if c then 1 else 0) + (if d then 1 else 0) == 1
  }

  lemma InSlotIff(s: State, c: nat)
    requires StageInv(s) && c < |s.calls| && Published(Req, s.calls[c].req.phase)
    ensures InSlot(s, c) <==> s.calls[c].stage.In?
  {
    assert CallFits(s, c);
    if InSlot(s, c) {
      var i :| 0 <= i < s.g.numSlots && s.occ[i] == c
        && (s.status[i] == Ready || s.status[i] == Claimed || s.status[i] == Done);
      assert SlotFits(s, i);
    }
  }

  lemma BeingDeliveredIff(s: State, c: nat)
    requires StageInv(s) && c < |s.calls|
    ensures BeingDelivered(s, c) <==> s.calls[c].stage == After(Taken)
  {
    assert ReaderOfCall(s, c);
  }

  lemma ConservationAt(s: State, c: nat)
    requires StageInv(s) && PendingInv(s) && c < |s.calls| && Published(Req, s.calls[c].req.phase)
    ensures ExactlyOne(InSlot(s, c), BeingDelivered(s, c), s.calls[c].receiver.Some?, Lost(s.calls[c]))
  {
    hide InSlot, BeingDelivered;
    InSlotIff(s, c);
    BeingDeliveredIff(s, c);
    assert CallFits(s, c) && CallPending(s, c);
    hide StageInv, PendingInv, CallPending, ReaderOfCall;
    assert s.calls[c].receiver.Some? <==> s.calls[c].stage == After(Delivered);
  }

  /** Every published request is in exactly one place: in a slot, in the watcher's hands, delivered,
      or lost in one of the four ways. */
  lemma Conservation(run: seq<State>, acts: seq<Action>, k: nat, c: nat)
    requires IsRun(run, acts) && k < |run| && c < |run[k].calls| && Published(Req, run[k].calls[c].req.phase)
    ensures Shape(run[k])
    ensures ExactlyOne(InSlot(run[k], c), BeingDelivered(run[k], c), run[k].calls[c].receiver.Some?,
                       Lost(run[k].calls[c]))
  {
    RunInv(run, acts, k);
    hide IsRun;
    ConservationAt(run[k], c);
  }

  /** The pending map is exactly the registered requests whose receiver is unresolved. */
  lemma PendingExact(run: seq<State>, acts: seq<Action>, k: nat, id: seq<byte>)
    requires IsRun(run, acts) && k < |run|
    ensures var s := run[k];
            id in s.pending <==>
              exists c ::
                0 <= c < |s.calls| && s.calls[c].id == id && Registered(s.calls[c]) && s.calls[c].receiver.None?
    ensures id in run[k].pending ==> run[k].pending[id] < |run[k].calls| && run[k].calls[run[k].pending[id]].id == id
  {
    var s := run[k];
    RunInv(run, acts, k);
    hide IsRun, StageInv, MemInv, RegionInv, ReaderInv;
    if c :| 0 <= c < |s.calls| && s.calls[c].id == id && Registered(s.calls[c]) && s.calls[c].receiver.None? {
      assert CallPending(s, c);
    }
  }

  lemma ResolveDelivers(s: State)
    requires StageInv(s) && ReaderInv(s) && PendingInv(s) && s.watcher.Resolving?
    ensures s.watcher.c < |s.calls|
    ensures var c := s.watcher.c;
            Resolve(s).calls[c].receiver.Some? <==> s.watcher.result.Some? && Registered(s.calls[c])
  {
    ResolveTarget(s);
    assert CallPending(s, s.watcher.c);
    hide StageInv, ReaderInv;
  }

  /** "Every response is delivered" is not what the code does. Exactly this is: when the watcher resolves
      a request, the response reaches its receiver if and only if it could be read and the dispatching
      thread has already inserted its pending entry. */
  lemma DeliveredIff(run: seq<State>, acts: seq<Action>, k: nat)
    requires IsRun(run, acts) && k < |acts| && acts[k] == DoResolve
    ensures run[k].watcher.Resolving? && run[k].watcher.c < |run[k].calls| == |run[k + 1].calls|
    ensures var s, c, t := run[k], run[k].watcher.c, run[k + 1];
            t.calls[c].receiver.Some? <==> s.watcher.result.Some? && Registered(s.calls[c])
  {
    RunInv(run, acts, k);
    RunStep(run, acts, k);
    hide IsRun, StageInv, MemInv, RegionInv, ReaderInv, PendingInv, WakeInv, SyncInv, Resolve;
    ResolveDelivers(run[k]);
  }
}
