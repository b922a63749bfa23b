/** The concurrent protocol of `transport.rs` as a step system over the shared bytes.

    Threads: any number of `dispatch` calls, the worker's receive loop, one `send_response` per
    claimed request, and the hub's response watcher. One step is one atomic access (a compare and
    swap, a status store, a locked map operation, an event operation), one raw write of a write
    program, or one read of a slot's fields, heap or overflow region.

    `stage`, `seen` and `maker` record history for the proofs; no guard and no shared effect depends on
    them. `occ` does so too but for one use: the worker, which in the code hands its handler the number
    of the slot it has read, here hands on the request that occupies that slot, and the response is
    written to that request's slot. `Stages.FinishReadEffect` shows that the two are the same slot. */
module Protocol {
  import opened Bytes
  import opened Layout
  import opened Slots

  // ---- Threads ---------------------------------------------------------------------

  /** Program counter of a writer: a `dispatch` call or a `send_response` call. */
  datatype Phase =
    | Idle                    // response side: the request has not reached a handler
    | Looking(next: nat)      // claim_free_slot is about to try slot `next`
    | Asked                   // the handler has the request and has not called send_response yet
    | Dropping                // about to drop a stale overflow handle
    | Storing(k: nat)         // about to make write `k` of the program
    | Creating(gen: nat)      // about to try to create the overflow region of this generation
    | Filling                 // region created, about to copy the body into it
    | Aborting                // a write failed, about to store Free
    | Inserting               // published, about to insert the overflow handle
    | Registering             // about to insert the pending entry (hub only)
    | Signalling              // about to signal the event
    | Returned
    | Refused

  datatype Writer = Writer(payload: Payload, phase: Phase, marker: nat, region: Option<nat>)

  datatype Fate =
    | NoFreeSlot | RequestRefused     // dispatch returned an error
    | RequestUnread                   // worker could not read the request
    | ResponseRefused                 // send_response could not write
    | Taken                           // watcher has freed the slot and holds the response
    | Delivered
    | ResponseUnread                  // watcher could not read the response
    | Unclaimed                       // watcher found no pending entry

  /** How far a request has got: before its slot, in its slot with this status, or past it. */
  datatype Stage = Before | In(status: Status) | After(fate: Fate)

  datatype Call = Call(
    id: seq<byte>, slot: nat, req: Writer, rsp: Writer,
    stage: Stage, seen: Option<(seq<byte>, Payload)>, receiver: Option<Payload>)

  /** Program counter and locals of a reader: the receive loop or the response watcher. */
  datatype Reader =
    | Waiting
    | Scanning(i: nat)
    | AtHead(i: nat)
    | AtMeta(i: nat, id: seq<byte>, tag: nat)
    | AtBody(i: nat, id: seq<byte>, tag: nat, meta: seq<byte>)
    | Copying(i: nat, id: seq<byte>, tag: nat, meta: seq<byte>, len: nat, region: nat)
    | Got(i: nat, id: seq<byte>, result: Option<Payload>)
    | Handling(i: nat, c: nat)                                       // worker, handler on its thread
    | Freed(i: nat, id: seq<byte>, result: Option<Payload>, c: nat)  // watcher, about to drop the handle
    | Resolving(i: nat, id: seq<byte>, result: Option<Payload>, c: nat)

  /** The reader is somewhere between finding a slot and finishing to read it. */
  predicate Reading(r: Reader) {
    r.AtHead? || r.AtMeta? || r.AtBody? || r.Copying? || r.Got?
  }

  // ---- Shared state ------------------------------------------------------------------

  /** An overflow region's name; `Names` shows the printed names are as distinct as these. */
  datatype Name = Name(dir: Dir, slot: nat, gen: nat)

  datatype Maker = Foreign | MadeBy(dir: Dir, c: nat)

  datatype Region = Region(name: Name, data: seq<byte>, maker: Maker)

  datatype State = State(
    semaphore: bool,             // events count signals (POSIX) instead of latching one (Windows)
    sync: bool,                  // handlers answer on the receive thread before returning
    g: Geometry,
    mem: seq<byte>,
    status: seq<Status>,
    occ: seq<nat>,
    calls: seq<Call>,
    worker: Reader,
    watcher: Reader,
    reqEvent: nat,
    rspEvent: nat,
    pending: map<seq<byte>, nat>,
    handles: map<(Dir, nat), nat>,   // hub's map under Req, worker's map under Rsp
    regions: seq<Region>,
    names: map<Name, nat>,
    held: set<nat>)                  // regions whose creating handle has not been dropped
  {
    function PhaseOf(dir: Dir, c: nat): Phase
      requires c < |calls|
    {
      WriterOf(calls[c], dir).phase
    }
  }

  predicate Shape(s: State) {
    && Sound(s.g)
    && |s.mem| == MappedSize(s.g)
    && |s.status| == s.g.numSlots
    && |s.occ| == s.g.numSlots
  }

  /** What no step changes: the configuration and the sizes. */
  predicate Alike(s: State, t: State) {
    && t.semaphore == s.semaphore && t.sync == s.sync && t.g == s.g
    && |t.mem| == |s.mem| && |t.status| == |s.status| && |t.occ| == |s.occ|
  }

  function WriterOf(call: Call, dir: Dir): Writer {
    match dir
    case Req => call.req
    case Rsp => call.rsp
  }

  function WithWriter(call: Call, dir: Dir, w: Writer): Call {
    match dir
    case Req => call.(req := w)
    case Rsp => call.(rsp := w)
  }

  function WithPhase(call: Call, dir: Dir, phase: Phase): Call {
    WithWriter(call, dir, WriterOf(call, dir).(phase := phase))
  }

  function ReaderOf(s: State, dir: Dir): Reader {
    match dir
    case Req => s.worker
    case Rsp => s.watcher
  }

  function WithReader(s: State, dir: Dir, r: Reader): (t: State)
    ensures Alike(s, t)
  {
    match dir
    case Req => s.(worker := r)
    case Rsp => s.(watcher := r)
  }

  function EventOf(s: State, dir: Dir): nat {
    match dir
    case Req => s.reqEvent
    case Rsp => s.rspEvent
  }

  function WithEvent(s: State, dir: Dir, e: nat): (t: State)
    ensures Alike(s, t)
  {
    match dir
    case Req => s.(reqEvent := e)
    case Rsp => s.(rspEvent := e)
  }

  function SetCall(s: State, c: nat, call: Call): (t: State)
    requires c < |s.calls|
    ensures Alike(s, t)
  {
    s.(calls := s.calls[c := call])
  }

  function SetStatus(s: State, i: nat, st: Status): (t: State)
    requires i < |s.status|
    ensures Alike(s, t)
  {
    s.(status := s.status[i := st])
  }

  /** History only: note how far the request occupying a slot has got. */
  function SetStage(s: State, c: nat, stage: Stage): (t: State)
    ensures Alike(s, t)
    ensures t == s.(calls := t.calls) && |t.calls| == |s.calls|
    ensures forall d :: 0 <= d < |s.calls| ==> t.calls[d] == if d == c then s.calls[d].(stage := stage) else s.calls[d]
  {
    if c < |s.calls| then SetCall(s, c, s.calls[c].(stage := stage)) else s
  }

  function ProgramOf(s: State, dir: Dir, call: Call): seq<Write> {
    var w := WriterOf(call, dir);
    Program(s.g, dir, call.slot, call.id, w.payload, w.marker)
  }

  // ---- dispatch ------------------------------------------------------------------------

  predicate FreshId(s: State, id: seq<byte>) {
    ValidId(id) && forall c :: 0 <= c < |s.calls| ==> s.calls[c].id != id
  }

  /** A thread calls `dispatch`. Ids are at most 36 bytes, contain no zero byte and are not reused. */
  function Start(s: State, id: seq<byte>, p: Payload): (t: State)
    ensures Alike(s, t) && t.status == s.status && t.mem == s.mem
  {
    var idle := Writer(Payload(0, [], []), Idle, 0, None);
    s.(calls := s.calls + [Call(id, 0, Writer(p, Looking(0), 0, None), idle, Before, None, None)])
  }

  /** One iteration of `claim_free_slot`. */
  predicate CanClaim(s: State, c: nat) {
    c < |s.calls| && s.calls[c].req.phase.Looking?
  }

  function Claim(s: State, c: nat): (t: State)
    requires Shape(s) && CanClaim(s, c)
    ensures Alike(s, t)
    ensures t == s.(status := t.status, occ := t.occ, calls := t.calls) && |t.calls| == |s.calls|
    ensures t.calls == s.calls[c := t.calls[c]]
    ensures t.calls[c].rsp == s.calls[c].rsp && t.calls[c].id == s.calls[c].id
  {
    var call := s.calls[c];
    var j := call.req.phase.next;
    if j >= s.g.numSlots then
      SetCall(s, c, WithPhase(call, Req, Refused).(stage := After(NoFreeSlot)))
    else if s.status[j] == Free then
      SetCall(SetStatus(s, j, Writing).(occ := s.occ[j := c]), c,
              WithPhase(call, Req, Dropping).(slot := j, stage := In(Writing)))
    else
      SetCall(s, c, WithPhase(call, Req, Looking(j + 1)))
  }

  predicate CanRegister(s: State, c: nat) {
    c < |s.calls| && s.calls[c].req.phase == Registering
  }

  function Register(s: State, c: nat): (t: State)
    requires CanRegister(s, c)
    ensures Alike(s, t) && t.status == s.status && t.mem == s.mem && |t.calls| == |s.calls|
  {
    SetCall(s, c, WithPhase(s.calls[c], Req, Signalling)).(pending := s.pending[s.calls[c].id := c])
  }

  // ---- Both writers ------------------------------------------------------------------------

  predicate CanWriter(s: State, dir: Dir, c: nat, phase: Phase) {
    c < |s.calls| && s.calls[c].slot < s.g.numSlots && WriterOf(s.calls[c], dir).phase == phase
  }

  function DropHandleOf(s: State, dir: Dir, slot: nat): (t: State)
    ensures Alike(s, t)
    ensures t == s.(handles := t.handles, held := t.held)
  {
    if (dir, slot) in s.handles
    then s.(handles := s.handles - {(dir, slot)}, held := s.held - {s.handles[(dir, slot)]})
    else s
  }

  function DropStale(s: State, dir: Dir, c: nat): (t: State)
    requires CanWriter(s, dir, c, Dropping)
    ensures Alike(s, t) && t.status == s.status && t.mem == s.mem && |t.calls| == |s.calls|
  {
    SetCall(DropHandleOf(s, dir, s.calls[c].slot), c, WithPhase(s.calls[c], dir, Storing(0)))
  }

  predicate CanWriteNext(s: State, dir: Dir, c: nat) {
    && c < |s.calls| && s.calls[c].slot < s.g.numSlots
    && WriterOf(s.calls[c], dir).phase.Storing?
    && WriterOf(s.calls[c], dir).phase.k < |ProgramOf(s, dir, s.calls[c])|
  }

  /** What a writer does at its next write: refuse oversized metadata, go and create an overflow
      region first, or make the write (which fails if it would leave the mapping). */
  datatype WriteStep = RefuseMeta | NeedRegion | OutOfBounds | Make(w: Write)

  function NextWrite(s: State, dir: Dir, call: Call, k: nat): WriteStep
    requires k < |ProgramOf(s, dir, call)|
  {
    var w := WriterOf(call, dir);
    if k == HeadLen(dir) && !MetaFits(s.g, dir, w.payload) then RefuseMeta
    else if k == BodyIndex(dir) && SpillsAt(s.g, dir, call.slot, w.payload) && w.region.None? then NeedRegion
    else if !Fits(s.mem, ProgramOf(s, dir, call)[k]) then OutOfBounds
    else Make(ProgramOf(s, dir, call)[k])
  }

  function WriteNext(s: State, dir: Dir, c: nat): (t: State)
    requires CanWriteNext(s, dir, c)
    ensures Alike(s, t)
    ensures t == s.(calls := t.calls, mem := t.mem) && |t.calls| == |s.calls|
    ensures t.calls == s.calls[c := WithPhase(s.calls[c], dir, t.PhaseOf(dir, c))]
    ensures t.PhaseOf(dir, c).Storing? || t.PhaseOf(dir, c) == Creating(0) || t.PhaseOf(dir, c) == Aborting
  {
    var call := s.calls[c];
    var k := WriterOf(call, dir).phase.k;
    match NextWrite(s, dir, call, k)
    case RefuseMeta => SetCall(s, c, WithPhase(call, dir, Aborting))
    case NeedRegion => SetCall(s, c, WithPhase(call, dir, Creating(0)))
    case OutOfBounds => SetCall(s, c, WithPhase(call, dir, Aborting))
    case Make(w) => SetCall(s, c, WithPhase(call, dir, Storing(k + 1))).(mem := Splice(s.mem, w))
  }

  predicate CanTryCreate(s: State, dir: Dir, c: nat) {
    c < |s.calls| && s.calls[c].slot < s.g.numSlots && WriterOf(s.calls[c], dir).phase.Creating?
  }

  /** One attempt of `create_overflow_fresh`; `fault` is an operating-system error other than a
      taken name. Reclaiming an orphan first is a `Vanish` step of that name. */
  function TryCreate(s: State, dir: Dir, c: nat, fault: bool): (t: State)
    requires CanTryCreate(s, dir, c)
    ensures Alike(s, t)
    ensures t == s.(calls := t.calls, regions := t.regions, names := t.names, held := t.held)
    ensures |t.calls| == |s.calls| && t.calls == s.calls[c := WithWriter(s.calls[c], dir, WriterOf(t.calls[c], dir))]
    ensures var w, w' := WriterOf(s.calls[c], dir), WriterOf(t.calls[c], dir);
            || (w' == w.(phase := Filling, marker := w.phase.gen + 1, region := Some(|s.regions|)))
            || (w' == w.(phase := Creating(w.phase.gen + 1)) && w.phase.gen < MAX_OVERFLOW_GENERATION)
            || w' == w.(phase := Aborting)
  {
    var call := s.calls[c];
    var w := WriterOf(call, dir);
    var gen := w.phase.gen;
    var name := Name(dir, call.slot, gen);
    if fault then
      SetCall(s, c, WithPhase(call, dir, Aborting))
    else if name !in s.names then
      var r := |s.regions|;
      SetCall(s, c, WithWriter(call, dir, w.(phase := Filling, marker := gen + 1, region := Some(r))))
      .(regions := s.regions + [Region(name, Zeros(OverflowSize(|w.payload.body|)), MadeBy(dir, c))],
        names := s.names[name := r],
        held := s.held + {r})
    else if gen < MAX_OVERFLOW_GENERATION then
      SetCall(s, c, WithPhase(call, dir, Creating(gen + 1)))
    else
      SetCall(s, c, WithPhase(call, dir, Aborting))
  }

  predicate CanFill(s: State, dir: Dir, c: nat) {
    && CanWriter(s, dir, c, Filling)
    && WriterOf(s.calls[c], dir).region.Some?
    && WriterOf(s.calls[c], dir).region.value < |s.regions|
  }

  function Fill(s: State, dir: Dir, c: nat): (t: State)
    requires CanFill(s, dir, c)
    ensures Alike(s, t) && t.status == s.status && t.mem == s.mem && |t.calls| == |s.calls|
  {
    var w := WriterOf(s.calls[c], dir);
    var r := w.region.value;
    SetCall(s, c, WithPhase(s.calls[c], dir, Storing(BodyIndex(dir))))
    .(regions := s.regions[r := s.regions[r].(data := FilledPages(w.payload.body))])
  }

  predicate CanPublish(s: State, dir: Dir, c: nat) {
    && c < |s.calls| && s.calls[c].slot < s.g.numSlots
    && WriterOf(s.calls[c], dir).phase.Storing?
    && WriterOf(s.calls[c], dir).phase.k == |ProgramOf(s, dir, s.calls[c])|
  }

  function PublishedStatus(dir: Dir): Status {
    match dir
    case Req => Ready
    case Rsp => Done
  }

  /** The unconditional store of Ready or Done. */
  function Publish(s: State, dir: Dir, c: nat): (t: State)
    requires Shape(s) && CanPublish(s, dir, c)
    ensures Alike(s, t) && t.mem == s.mem && |t.calls| == |s.calls|
  {
    var call := s.calls[c];
    SetCall(SetStatus(s, call.slot, PublishedStatus(dir)), c,
            WithPhase(call, dir, Inserting).(stage := In(PublishedStatus(dir))))
  }

  /** The unconditional store of Free after a failed write. */
  function Abort(s: State, dir: Dir, c: nat): (t: State)
    requires Shape(s) && CanWriter(s, dir, c, Aborting)
    ensures Alike(s, t) && t.mem == s.mem && |t.calls| == |s.calls|
  {
    var call := s.calls[c];
    SetCall(SetStatus(s, call.slot, Free), c,
            WithPhase(call, dir, Refused).(stage := After(if dir == Req then RequestRefused else ResponseRefused)))
  }

  /** Inserting into the handle map drops whatever handle the slot had there. */
  function InsertHandle(s: State, dir: Dir, c: nat): (t: State)
    requires CanWriter(s, dir, c, Inserting)
    ensures Alike(s, t)
    ensures t == s.(calls := t.calls, handles := t.handles, held := t.held)
    ensures t.calls == s.calls[c := WithPhase(s.calls[c], dir, if dir == Req then Registering else Signalling)]
    ensures forall key :: key in t.handles ==>
              if key == (dir, s.calls[c].slot) && WriterOf(s.calls[c], dir).region.Some?
              then t.handles[key] == WriterOf(s.calls[c], dir).region.value
              else key in s.handles && t.handles[key] == s.handles[key]
  {
    var call := s.calls[c];
    var s1 := match WriterOf(call, dir).region
              case None => s
              case Some(r) =>
                var u := DropHandleOf(s, dir, call.slot);
                u.(handles := u.handles[(dir, call.slot) := r]);
    SetCall(s1, c, WithPhase(call, dir, if dir == Req then Registering else Signalling))
  }

  function Signal(s: State, dir: Dir, c: nat): (t: State)
    requires CanWriter(s, dir, c, Signalling)
    ensures Alike(s, t) && t.status == s.status && t.mem == s.mem && |t.calls| == |s.calls|
  {
    WithEvent(SetCall(s, c, WithPhase(s.calls[c], dir, Returned)), dir,
              if s.semaphore then EventOf(s, dir) + 1 else 1)
  }

  // ---- Both readers ------------------------------------------------------------------------

  /** `wait_timeout`: takes a signal when there is one, else returns only by timing out. */
  predicate CanWake(s: State, dir: Dir, timeout: bool) {
    ReaderOf(s, dir).Waiting? && (timeout || EventOf(s, dir) > 0)
  }

  function Wake(s: State, dir: Dir, timeout: bool): (t: State)
    requires CanWake(s, dir, timeout)
    ensures Alike(s, t) && t.status == s.status && t.mem == s.mem && |t.calls| == |s.calls|
  {
    var e := EventOf(s, dir);
    WithReader(WithEvent(s, dir, if e > 0 && s.semaphore then e - 1 else 0), dir, Scanning(0))
  }

  predicate CanScan(s: State, dir: Dir) {
    ReaderOf(s, dir).Scanning?
  }

  /** One iteration of the scan: the worker's Ready -> Claimed exchange, the watcher's load of Done. */
  function Scan(s: State, dir: Dir): (t: State)
    requires Shape(s) && CanScan(s, dir)
    ensures Alike(s, t) && |t.calls| == |s.calls|
    ensures t == WithReader(s.(status := t.status, calls := t.calls), dir, ReaderOf(t, dir))
    ensures dir == Rsp ==> t.status == s.status && t.calls == s.calls
    ensures ReaderOf(t, dir).Waiting? || ReaderOf(t, dir).Scanning?
              || (ReaderOf(t, dir) == AtHead(ReaderOf(s, dir).i) && ReaderOf(s, dir).i < s.g.numSlots
                  && s.status[ReaderOf(s, dir).i] == PublishedStatus(dir))
  {
    var i := ReaderOf(s, dir).i;
    if i >= s.g.numSlots then
      WithReader(s, dir, Waiting)
    else if s.status[i] != PublishedStatus(dir) then
      WithReader(s, dir, Scanning(i + 1))
    else if dir == Req then
      SetStage(SetStatus(s, i, Claimed), s.occ[i], In(Claimed)).(worker := AtHead(i))
    else
      s.(watcher := AtHead(i))
  }

  predicate CanRead(s: State, dir: Dir) {
    match ReaderOf(s, dir)
    case AtHead(i) => i < s.g.numSlots
    case AtMeta(i, _, _) => i < s.g.numSlots
    case AtBody(i, _, _, _) => i < s.g.numSlots
    case Copying(i, _, _, _, len, r) => i < s.g.numSlots && r < |s.regions| && len <= |s.regions[r].data|
    case _ => false
  }

  lemma SlotInMapping(g: Geometry, i: nat)
    requires Sound(g) && i < g.numSlots
    ensures SlotBase(i) + SLOT_META_SIZE <= g.heapOffset
  {
  }

  /** The next read of `read_request` or, preceded by the request id, of `read_response`. */
  function Read(s: State, dir: Dir): (t: State)
    requires Shape(s) && CanRead(s, dir)
    ensures Alike(s, t)
    ensures t == WithReader(s, dir, ReaderOf(t, dir)) && Reading(ReaderOf(t, dir))
    ensures ReaderOf(t, dir).i == ReaderOf(s, dir).i
  {
    SlotInMapping(s.g, ReaderOf(s, dir).i);
    WithReader(s, dir,
      match ReaderOf(s, dir)
      case AtHead(i) => AtMeta(i, DecodeId(s.mem, i), DecodeTag(s.mem, dir, i))
      case AtMeta(i, id, tag) => (
        match DecodeMeta(s.mem, s.g, dir, i)
        case Some(meta) => AtBody(i, id, tag, meta)
        case None => Got(i, id, None))
      case AtBody(i, id, tag, meta) => (
        match DecodeBody(s.mem, s.g, dir, i)
        case NoBody => Got(i, id, Some(Payload(tag, meta, [])))
        case InHeap(None) => Got(i, id, None)
        case InHeap(Some(body)) => Got(i, id, Some(Payload(tag, meta, body)))
        case InOverflow(gen, len) => OpenOverflow(s, Name(dir, i, gen), i, id, tag, meta, len))
      case Copying(i, id, tag, meta, len, r) => Got(i, id, Some(Payload(tag, meta, s.regions[r].data[..len])))
      case other => other)
  }

  function OpenOverflow(s: State, name: Name, i: nat, id: seq<byte>, tag: nat, meta: seq<byte>, len: nat): Reader {
    if name in s.names && s.names[name] < |s.regions| && len <= |s.regions[s.names[name]].data|
    then Copying(i, id, tag, meta, len, s.names[name])
    else Got(i, id, None)
  }

  // ---- Worker ----------------------------------------------------------------------------------

  predicate CanFinishRead(s: State) {
    s.worker.Got? && s.worker.i < s.g.numSlots
  }

  /** Hand the request to the handler, or free the slot when it could not be read. */
  function FinishRead(s: State): (t: State)
    requires Shape(s) && CanFinishRead(s)
    ensures Alike(s, t) && t.mem == s.mem && |t.calls| == |s.calls|
  {
    var Got(i, id, result) := s.worker;
    var c := s.occ[i];
    match result
    case None => SetStage(SetStatus(s, i, Free), c, After(RequestUnread)).(worker := Scanning(i + 1))
    case Some(p) =>
      var u := s.(worker := if s.sync then Handling(i, c) else Scanning(i + 1));
      if c < |s.calls|
      then SetCall(u, c, WithPhase(s.calls[c], Rsp, Asked).(seen := Some((id, p))))
      else u
  }

  /** The handler's single call of `send_response`, with whatever it answers. */
  function Respond(s: State, c: nat, p: Payload): (t: State)
    requires CanWriter(s, Rsp, c, Asked)
    ensures Alike(s, t) && t.status == s.status && t.mem == s.mem && |t.calls| == |s.calls|
  {
    SetCall(s, c, s.calls[c].(rsp := s.calls[c].rsp.(payload := p, phase := Dropping)))
  }

  predicate Ended(phase: Phase) {
    phase == Returned || phase == Refused
  }

  predicate CanLeaveHandler(s: State) {
    s.worker.Handling? && s.worker.c < |s.calls| && Ended(s.calls[s.worker.c].rsp.phase)
  }

  function LeaveHandler(s: State): (t: State)
    requires CanLeaveHandler(s)
    ensures Alike(s, t) && t.status == s.status && t.mem == s.mem && |t.calls| == |s.calls|
  {
    s.(worker := Scanning(s.worker.i + 1))
  }

  // ---- Watcher -----------------------------------------------------------------------------------

  predicate CanFree(s: State) {
    s.watcher.Got? && s.watcher.i < s.g.numSlots
  }

  /** The Done -> Free exchange. */
  function FreeSlot(s: State): (t: State)
    requires Shape(s) && CanFree(s)
    ensures Alike(s, t) && t.mem == s.mem && |t.calls| == |s.calls|
  {
    var Got(i, id, result) := s.watcher;
    if s.status[i] == Done
    then SetStage(SetStatus(s, i, Free), s.occ[i], After(Taken)).(watcher := Freed(i, id, result, s.occ[i]))
    else s.(watcher := Scanning(i + 1))
  }

  function DropRequestHandle(s: State): (t: State)
    requires s.watcher.Freed?
    ensures Alike(s, t) && t.status == s.status && t.mem == s.mem && |t.calls| == |s.calls|
  {
    var Freed(i, id, result, c) := s.watcher;
    DropHandleOf(s, Req, i).(watcher := Resolving(i, id, result, c))
  }

  /** Remove the pending entry of the id read from the slot and send on its channel. */
  function Resolve(s: State): (t: State)
    requires s.watcher.Resolving?
    ensures Alike(s, t)
    ensures t == s.(watcher := Scanning(s.watcher.i + 1), calls := t.calls, pending := t.pending)
    ensures |t.calls| == |s.calls|
    ensures forall d :: 0 <= d < |s.calls| ==>
              t.calls[d] == s.calls[d].(stage := if d == s.watcher.c then After(Outcome(s)) else s.calls[d].stage,
                                        receiver := t.calls[d].receiver)
  {
    var Resolving(i, id, result, c) := s.watcher;
    var u := SetStage(s.(watcher := Scanning(i + 1)), c, After(Outcome(s)));
    if Outcome(s) == Delivered then Deliver(u, id, result.value) else u
  }

  function Outcome(s: State): Fate
    requires s.watcher.Resolving?
  {
    if s.watcher.result.None? then ResponseUnread
    else if s.watcher.id in s.pending then Delivered
    else Unclaimed
  }

  function Deliver(s: State, id: seq<byte>, p: Payload): (t: State)
    requires id in s.pending
    ensures Alike(s, t)
    ensures t == s.(calls := t.calls, pending := s.pending - {id}) && |t.calls| == |s.calls|
    ensures forall d :: 0 <= d < |s.calls| ==>
              t.calls[d] == s.calls[d].(receiver := if d == s.pending[id] then Some(p) else s.calls[d].receiver)
  {
    var target := s.pending[id];
    var u := s.(pending := s.pending - {id});
    if target < |s.calls| then SetCall(u, target, s.calls[target].(receiver := Some(p))) else u
  }

  /** A name that no live handle of this bus protects goes away: a peer or a late reader lets go
      of it, or an orphan is reclaimed. */
  function Vanish(s: State, name: Name): (t: State)
    requires name in s.names && s.names[name] !in s.held
    ensures Alike(s, t) && t.status == s.status && t.mem == s.mem && |t.calls| == |s.calls|
  {
    s.(names := s.names - {name})
  }

  // ---- Steps and runs --------------------------------------------------------------------------------

  datatype Action =
    | DoStart(id: seq<byte>, p: Payload)
    | DoClaim(c: nat)
    | DoRegister(c: nat)
    | DoDropStale(dir: Dir, c: nat)
    | DoWriteNext(dir: Dir, c: nat)
    | DoTryCreate(dir: Dir, c: nat, fault: bool)
    | DoFill(dir: Dir, c: nat)
    | DoPublish(dir: Dir, c: nat)
    | DoAbort(dir: Dir, c: nat)
    | DoInsertHandle(dir: Dir, c: nat)
    | DoSignal(dir: Dir, c: nat)
    | DoWake(dir: Dir, timeout: bool)
    | DoScan(dir: Dir)
    | DoRead(dir: Dir)
    | DoFinishRead
    | DoRespond(c: nat, p: Payload)
    | DoLeaveHandler
    | DoFree
    | DoDropRequestHandle
    | DoResolve
    | DoVanish(name: Name)

  predicate Enabled(s: State, a: Action)
    requires Shape(s)
  {
    match a
    case DoStart(id, _) => FreshId(s, id)
    case DoClaim(c) => CanClaim(s, c)
    case DoRegister(c) => CanRegister(s, c)
    case DoDropStale(dir, c) => CanWriter(s, dir, c, Dropping)
    case DoWriteNext(dir, c) => CanWriteNext(s, dir, c)
    case DoTryCreate(dir, c, _) => CanTryCreate(s, dir, c)
    case DoFill(dir, c) => CanFill(s, dir, c)
    case DoPublish(dir, c) => CanPublish(s, dir, c)
    case DoAbort(dir, c) => CanWriter(s, dir, c, Aborting)
    case DoInsertHandle(dir, c) => CanWriter(s, dir, c, Inserting)
    case DoSignal(dir, c) => CanWriter(s, dir, c, Signalling)
    case DoWake(dir, timeout) => CanWake(s, dir, timeout)
    case DoScan(dir) => CanScan(s, dir)
    case DoRead(dir) => CanRead(s, dir)
    case DoFinishRead => CanFinishRead(s)
    case DoRespond(c, _) => CanWriter(s, Rsp, c, Asked)
    case DoLeaveHandler => CanLeaveHandler(s)
    case DoFree => CanFree(s)
    case DoDropRequestHandle => s.watcher.Freed?
    case DoResolve => s.watcher.Resolving?
    case DoVanish(name) => name in s.names && s.names[name] !in s.held
  }

  function Step(s: State, a: Action): (t: State)
    requires Shape(s) && Enabled(s, a)
    ensures Shape(t) && Alike(s, t)
  {
    hide Claim, WriteNext, TryCreate, Publish, InsertHandle, Scan, Read, FinishRead, FreeSlot, Resolve;
    match a
    case DoStart(id, p) => Start(s, id, p)
    case DoClaim(c) => Claim(s, c)
    case DoRegister(c) => Register(s, c)
    case DoDropStale(dir, c) => DropStale(s, dir, c)
    case DoWriteNext(dir, c) => WriteNext(s, dir, c)
    case DoTryCreate(dir, c, fault) => TryCreate(s, dir, c, fault)
    case DoFill(dir, c) => Fill(s, dir, c)
    case DoPublish(dir, c) => Publish(s, dir, c)
    case DoAbort(dir, c) => Abort(s, dir, c)
    case DoInsertHandle(dir, c) => InsertHandle(s, dir, c)
    case DoSignal(dir, c) => Signal(s, dir, c)
    case DoWake(dir, timeout) => Wake(s, dir, timeout)
    case DoScan(dir) => Scan(s, dir)
    case DoRead(dir) => Read(s, dir)
    case DoFinishRead => FinishRead(s)
    case DoRespond(c, p) => Respond(s, c, p)
    case DoLeaveHandler => LeaveHandler(s)
    case DoFree => FreeSlot(s)
    case DoDropRequestHandle => DropRequestHandle(s)
    case DoResolve => Resolve(s)
    case DoVanish(name) => Vanish(s, name)
  }

  /** After `init_control`, before any dispatch. Names left behind by other processes may exist. */
  ghost predicate Init(s: State) {
    && Shape(s)
    && (forall i :: 0 <= i < s.g.numSlots ==> s.status[i] == Free)
    && s.calls == [] && s.worker == Waiting && s.watcher == Waiting
    && s.reqEvent == 0 && s.rspEvent == 0
    && s.pending == map[] && s.handles == map[] && s.held == {}
    && (forall name :: name in s.names ==> s.names[name] < |s.regions| && s.regions[s.names[name]].name == name)
    && (forall r :: 0 <= r < |s.regions| ==> s.regions[r].maker == Foreign)
  }

  /** `run[k + 1]` is what step `acts[k]` makes of `run[k]`. */
  ghost predicate IsRun(run: seq<State>, acts: seq<Action>) {
    && |run| == |acts| + 1
    && Init(run[0])
    && forall k {:trigger acts[k]} :: 0 <= k < |acts| ==>
      Shape(run[k]) && Enabled(run[k], acts[k]) && run[k + 1] == Step(run[k], acts[k])
  }
}
