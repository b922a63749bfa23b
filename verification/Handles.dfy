/** The handles that protect overflow regions: what a held region's name leads to, exactly which steps
    take the handle of a request's region away, and when none will. */
module Handles {
  import opened Bytes
  import opened Layout
  import opened Slots
  import opened Protocol
  import opened Stages
  import opened Memory
  import opened Regions
  import opened Readers
  import opened Pending
  import opened Wakeups
  import opened SyncHandlers
  import opened Runs

  // ---- One step, seen by every request ---------------------------------------------------------------

  predicate Inserted(phase: Phase) {
    phase == Registering || phase == Signalling || phase == Returned
  }

  /** What step `a` may do to request `c`, as far as handles are concerned. */
  predicate CallStep(a: Action, c: nat, x: Call, y: Call) {
    && (Inserted(x.req.phase) ==> Inserted(y.req.phase))
    && (Inserted(x.rsp.phase) ==> Inserted(y.rsp.phase))
    && (x.stage.In? ==> y.slot == x.slot)
    && WriterStep(a, Req, c, x, y) && WriterStep(a, Rsp, c, x, y)
  }

  /** Regions only come with a creation, and a handle to insert only with a publication. */
  predicate WriterStep(a: Action, dir: Dir, c: nat, x: Call, y: Call) {
    var w, w' := WriterOf(x, dir), WriterOf(y, dir);
    && (y.stage.In? && w'.region.Some? ==> (x.stage.In? && w.region == w'.region) || a.DoTryCreate?)
    && (w'.phase == Inserting ==>
          || (w.phase == Inserting && x.slot == y.slot && w.region == w'.region)
          || (a == DoPublish(dir, c) && w.phase.Storing? && x.slot == y.slot))
    && (w'.phase.Creating? && w'.phase.gen > 0 ==>
          x.slot == y.slot && (w.phase == w'.phase || (a.DoTryCreate? && a.dir == dir && a.c == c)))
  }

  lemma CallKept(a: Action, c: nat, x: Call)
    ensures CallStep(a, c, x, x)
  {
  }

  predicate NewCall(call: Call) {
    && call.stage == Before && call.req.phase.Looking? && call.rsp.phase == Idle
    && call.req.region.None? && call.rsp.region.None?
  }

  ghost predicate SameRegions(s: State, t: State) {
    |s.regions| <= |t.regions|
    && forall r :: 0 <= r < |s.regions| ==>
      t.regions[r].maker == s.regions[r].maker && t.regions[r].name == s.regions[r].name
  }

  ghost predicate CallsStep(s: State, a: Action, t: State) {
    && |s.calls| <= |t.calls|
    && (forall c :: 0 <= c < |s.calls| ==> CallStep(a, c, s.calls[c], t.calls[c]))
    && (forall c :: |s.calls| <= c < |t.calls| ==> NewCall(t.calls[c]))
  }

  ghost predicate Onward(s: State, a: Action, t: State) {
    SameRegions(s, t) && CallsStep(s, a, t) && (t.watcher.Freed? ==> t.watcher == s.watcher || a == DoFree)
  }

  /** At most one request has moved, and regions and watcher are as they were. */
  lemma OneMoves(s: State, a: Action, t: State, c: nat)
    requires |t.calls| == |s.calls| && (c < |s.calls| ==> t.calls == s.calls[c := t.calls[c]])
    requires c >= |s.calls| ==> t.calls == s.calls
    requires c < |s.calls| ==> CallStep(a, c, s.calls[c], t.calls[c])
    requires t.regions == s.regions && (t.watcher.Freed? ==> t.watcher == s.watcher || a == DoFree)
    ensures Onward(s, a, t)
  {
    hide CallStep;
    forall d | 0 <= d < |s.calls| ensures CallStep(a, d, s.calls[d], t.calls[d]) {
      CallKept(a, d, s.calls[d]);
    }
  }

  lemma StartOnward(s: State, id: seq<byte>, p: Payload)
    ensures Onward(s, DoStart(id, p), Start(s, id, p))
  {
  }

  lemma ClaimOnward(s: State, c: nat)
    requires StageInv(s) && MemInv(s) && CanClaim(s, c)
    ensures Onward(s, DoClaim(c), Claim(s, c))
  {
    ClaimEffect(s, c);
    assert CallMem(s, c) && s.calls[c].req.region.None? && s.calls[c].rsp.region.None?;
    hide StageInv, MemInv, Claim;
    OneMoves(s, DoClaim(c), Claim(s, c), c);
  }

  lemma RegisterOnward(s: State, c: nat)
    requires CanRegister(s, c)
    ensures Onward(s, DoRegister(c), Register(s, c))
  {
    OneMoves(s, DoRegister(c), Register(s, c), c);
  }

  lemma DropStaleOnward(s: State, dir: Dir, c: nat)
    requires CanWriter(s, dir, c, Dropping)
    ensures Onward(s, DoDropStale(dir, c), DropStale(s, dir, c))
  {
    hide DropHandleOf;
    OneMoves(s, DoDropStale(dir, c), DropStale(s, dir, c), c);
  }

  lemma WriteOnward(s: State, dir: Dir, c: nat)
    requires CanWriteNext(s, dir, c)
    ensures Onward(s, DoWriteNext(dir, c), WriteNext(s, dir, c))
  {
    hide WriteNext, ProgramOf;
    OneMoves(s, DoWriteNext(dir, c), WriteNext(s, dir, c), c);
  }

  lemma CreateOnward(s: State, dir: Dir, c: nat, fault: bool)
    requires CanTryCreate(s, dir, c)
    ensures Onward(s, DoTryCreate(dir, c, fault), TryCreate(s, dir, c, fault))
  {
    var a, t := DoTryCreate(dir, c, fault), TryCreate(s, dir, c, fault);
    assert SameRegions(s, t) && t.watcher == s.watcher;
    hide TryCreate;
    assert CallStep(a, c, s.calls[c], t.calls[c]);
    OneMoves(s, a, t.(regions := s.regions), c);
    hide CallStep;
  }

  lemma FillOnward(s: State, dir: Dir, c: nat)
    requires CanFill(s, dir, c)
    ensures Onward(s, DoFill(dir, c), Fill(s, dir, c))
  {
    hide FilledPages;
    var a, t := DoFill(dir, c), Fill(s, dir, c);
    OneMoves(s, a, t.(regions := s.regions), c);
    hide CallStep;
  }

  lemma PublishOnward(s: State, dir: Dir, c: nat)
    requires StageInv(s) && CanPublish(s, dir, c)
    ensures Onward(s, DoPublish(dir, c), Publish(s, dir, c))
  {
    hide ProgramOf;
    assert CallFits(s, c) && s.calls[c].stage.In?;
    hide StageInv;
    OneMoves(s, DoPublish(dir, c), Publish(s, dir, c), c);
  }

  lemma AbortOnward(s: State, dir: Dir, c: nat)
    requires Shape(s) && CanWriter(s, dir, c, Aborting)
    ensures Onward(s, DoAbort(dir, c), Abort(s, dir, c))
  {
    OneMoves(s, DoAbort(dir, c), Abort(s, dir, c), c);
  }

  lemma InsertOnward(s: State, dir: Dir, c: nat)
    requires CanWriter(s, dir, c, Inserting)
    ensures Onward(s, DoInsertHandle(dir, c), InsertHandle(s, dir, c))
  {
    hide InsertHandle;
    OneMoves(s, DoInsertHandle(dir, c), InsertHandle(s, dir, c), c);
  }

  lemma SignalOnward(s: State, dir: Dir, c: nat)
    requires CanWriter(s, dir, c, Signalling)
    ensures Onward(s, DoSignal(dir, c), Signal(s, dir, c))
  {
    OneMoves(s, DoSignal(dir, c), Signal(s, dir, c), c);
  }

  lemma WakeOnward(s: State, dir: Dir, timeout: bool)
    requires CanWake(s, dir, timeout)
    ensures Onward(s, DoWake(dir, timeout), Wake(s, dir, timeout))
  {
    OneMoves(s, DoWake(dir, timeout), Wake(s, dir, timeout), |s.calls|);
  }

  lemma ScanOnward(s: State, dir: Dir)
    requires StageInv(s) && CanScan(s, dir)
    ensures Onward(s, DoScan(dir), Scan(s, dir))
  {
    ScanEffect(s, dir);
    hide StageInv, Scan;
    OneMoves(s, DoScan(dir), Scan(s, dir), if ScanTakes(s, dir) then s.occ[ReaderOf(s, dir).i] else |s.calls|);
  }

  lemma ReadOnward(s: State, dir: Dir)
    requires Shape(s) && CanRead(s, dir)
    ensures Onward(s, DoRead(dir), Read(s, dir))
  {
    hide Read;
    OneMoves(s, DoRead(dir), Read(s, dir), |s.calls|);
  }

  lemma FinishReadOnward(s: State)
    requires StageInv(s) && CanFinishRead(s)
    ensures Onward(s, DoFinishRead, FinishRead(s))
  {
    FinishReadEffect(s);
    hide StageInv, FinishRead;
    OneMoves(s, DoFinishRead, FinishRead(s), s.occ[s.worker.i]);
  }

  lemma RespondOnward(s: State, c: nat, p: Payload)
    requires CanWriter(s, Rsp, c, Asked)
    ensures Onward(s, DoRespond(c, p), Respond(s, c, p))
  {
    OneMoves(s, DoRespond(c, p), Respond(s, c, p), c);
  }

  lemma FreeOnward(s: State)
    requires StageInv(s) && CanFree(s)
    ensures Onward(s, DoFree, FreeSlot(s))
  {
    FreeEffect(s);
    hide StageInv, FreeSlot;
    OneMoves(s, DoFree, FreeSlot(s), s.occ[s.watcher.i]);
  }

  lemma ResolveOnward(s: State)
    requires s.watcher.Resolving?
    ensures Onward(s, DoResolve, Resolve(s))
  {
    hide Resolve, Outcome;
  }

  lemma QuietOnward(s: State, a: Action)
    requires Shape(s) && Enabled(s, a) && (a.DoLeaveHandler? || a.DoDropRequestHandle? || a.DoVanish?)
    ensures Onward(s, a, Step(s, a))
  {
    hide DropHandleOf;
    OneMoves(s, a, Step(s, a), |s.calls|);
  }

  lemma StepOnward(s: State, a: Action)
    requires StageInv(s) && MemInv(s) && Enabled(s, a)
    ensures Onward(s, a, Step(s, a))
  {
    assert Shape(s);
    hide Onward, StageInv, MemInv, Start, Claim, Register, DropStale, WriteNext, TryCreate, Fill, Publish, Abort,
      InsertHandle, Signal, Wake, Scan, Read, FinishRead, FreeSlot, Resolve, Respond;
    match a
    case DoStart(id, p) => StartOnward(s, id, p);
    case DoClaim(c) => ClaimOnward(s, c);
    case DoRegister(c) => RegisterOnward(s, c);
    case DoDropStale(dir, c) => DropStaleOnward(s, dir, c);
    case DoWriteNext(dir, c) => WriteOnward(s, dir, c);
    case DoTryCreate(dir, c, fault) => CreateOnward(s, dir, c, fault);
    case DoFill(dir, c) => FillOnward(s, dir, c);
    case DoPublish(dir, c) => PublishOnward(s, dir, c);
    case DoAbort(dir, c) => AbortOnward(s, dir, c);
    case DoInsertHandle(dir, c) => InsertOnward(s, dir, c);
    case DoSignal(dir, c) => SignalOnward(s, dir, c);
    case DoWake(dir, timeout) => WakeOnward(s, dir, timeout);
    case DoScan(dir) => ScanOnward(s, dir);
    case DoRead(dir) => ReadOnward(s, dir);
    case DoFinishRead => FinishReadOnward(s);
    case DoRespond(c, p) => RespondOnward(s, c, p);
    case DoFree => FreeOnward(s);
    case DoResolve => ResolveOnward(s);
    case _ =>
      hide Step, Enabled;
      QuietOnward(s, a);
  }

  // ---- Handle maps, held regions and names -------------------------------------------------------------

  /** The actions that take a handle out of a map; `InsertHandle` also puts one in. */
  predicate Drops(a: Action) {
    a.DoDropStale? || a.DoInsertHandle? || a.DoDropRequestHandle?
  }

  predicate SameHandles(s: State, t: State) {
    t.handles == s.handles && t.held == s.held && t.names == s.names
  }

  lemma FinishReadFrame(s: State)
    requires Shape(s) && CanFinishRead(s)
    ensures SameHandles(s, FinishRead(s))
  {
    hide SetStage, WithPhase;
  }

  lemma FreeFrame(s: State)
    requires Shape(s) && CanFree(s)
    ensures SameHandles(s, FreeSlot(s))
  {
    hide SetStage;
  }

  lemma WakeFrame(s: State, dir: Dir, timeout: bool)
    requires CanWake(s, dir, timeout)
    ensures SameHandles(s, Wake(s, dir, timeout))
  {
  }

  predicate DataMove(a: Action) {
    a.DoStart? || a.DoRegister? || a.DoFill? || a.DoRespond?
  }

  predicate StatusMove(a: Action) {
    a.DoPublish? || a.DoAbort? || a.DoSignal?
  }

  predicate PlainMove(a: Action) {
    a.DoClaim? || a.DoWriteNext? || a.DoResolve? || a.DoScan? || a.DoRead? || a.DoLeaveHandler?
  }

  lemma DataFrame(s: State, a: Action)
    requires Shape(s) && Enabled(s, a) && DataMove(a)
    ensures SameHandles(s, Step(s, a))
  {
    hide FilledPages, FreshId;
  }

  lemma StatusFrame(s: State, a: Action)
    requires Shape(s) && Enabled(s, a) && StatusMove(a)
    ensures SameHandles(s, Step(s, a))
  {
    hide ProgramOf;
  }

  lemma PlainFrame(s: State, a: Action)
    requires Shape(s) && Enabled(s, a) && PlainMove(a)
    ensures SameHandles(s, Step(s, a))
  {
    hide Claim, WriteNext, Resolve, Scan, Read, ProgramOf;
  }

  /** No other action has anything to do with handles and names. */
  lemma HandlesStay(s: State, a: Action)
    requires Shape(s) && Enabled(s, a) && !Drops(a) && !a.DoTryCreate? && !a.DoVanish?
    ensures SameHandles(s, Step(s, a))
  {
    hide SameHandles;
    match a
    case DoFinishRead => FinishReadFrame(s); hide FinishRead;
    case DoFree => FreeFrame(s); hide FreeSlot;
    case DoWake(dir, timeout) => WakeFrame(s, dir, timeout); hide Wake;
    case _ =>
      hide Step, Enabled;
      if DataMove(a) {
        DataFrame(s, a);
      } else if StatusMove(a) {
        StatusFrame(s, a);
      } else {
        PlainFrame(s, a);
      }
  }

  /** The key under which a step takes handles out. */
  function DropKey(s: State, a: Action): (Dir, nat)
    requires Shape(s) && Enabled(s, a) && Drops(a)
  {
    match a
    case DoDropStale(dir, c) => (dir, s.calls[c].slot)
    case DoInsertHandle(dir, c) => (dir, s.calls[c].slot)
    case DoDropRequestHandle => (Req, s.watcher.i)
  }

  /** Whether it takes one out at all: an insertion without a region leaves the map alone. */
  predicate DropsAny(s: State, a: Action)
    requires Shape(s) && Enabled(s, a) && Drops(a)
  {
    DropKey(s, a) in s.handles && (a.DoInsertHandle? ==> WriterOf(s.calls[a.c], a.dir).region.Some?)
  }

  /** What such a step leaves held. */
  lemma DropEffect(s: State, a: Action)
    requires Shape(s) && Enabled(s, a) && Drops(a)
    ensures var t := Step(s, a);
            && t.names == s.names
            && t.held == if DropsAny(s, a) then s.held - {s.handles[DropKey(s, a)]} else s.held
  {
  }

  /** A creation holds the new region only. */
  lemma CreateEffect(s: State, dir: Dir, c: nat, fault: bool)
    requires CanTryCreate(s, dir, c)
    ensures var t, name := TryCreate(s, dir, c, fault), Name(dir, s.calls[c].slot, s.PhaseOf(dir, c).gen);
            || (SameHandles(s, t) && t.regions == s.regions && WriterOf(t.calls[c], dir).region
                == WriterOf(s.calls[c], dir).region)
            || (&& name !in s.names && t.names == s.names[name := |s.regions|] && t.held == s.held + {|s.regions|}
                && t.handles == s.handles && |t.regions| == |s.regions| + 1 && t.regions[|s.regions|].name == name
                && WriterOf(t.calls[c], dir).region == Some(|s.regions|))
  {
  }

  lemma VanishEffect(s: State, name: Name)
    requires name in s.names && s.names[name] !in s.held
    ensures var t := Vanish(s, name);
            t.handles == s.handles && t.held == s.held && t.regions == s.regions && t.names == s.names - {name}
  {
  }

  /** A region that is not held never will be again. */
  lemma NeverRegained(s: State, a: Action, r: nat)
    requires Shape(s) && Enabled(s, a) && r < |s.regions| && r !in s.held
    ensures r !in Step(s, a).held
  {
    if Drops(a) {
      DropEffect(s, a);
      hide Step, Enabled;
    } else if a.DoTryCreate? {
      CreateEffect(s, a.dir, a.c, a.fault);
      hide TryCreate;
    } else if a.DoVanish? {
      VanishEffect(s, a.name);
      hide Vanish;
    } else {
      HandlesStay(s, a);
      hide Step, Enabled;
    }
  }

  /** All that ever happens to the two handle maps: a writer drops what its slot has there before it
      writes, and puts its own region in afterwards; the watcher drops the request's. A handle that leaves
      its map is gone, and its region no longer held. */
  lemma HandleMaps(run: seq<State>, acts: seq<Action>, k: nat)
    requires IsRun(run, acts) && k < |acts|
    ensures Shape(run[k]) && Enabled(run[k], acts[k])
    ensures var s, t := run[k], run[k + 1];
            match acts[k]
            case DoDropStale(dir, c) =>
              && t.handles == s.handles - {(dir, s.calls[c].slot)}
              && t.held == s.held - HeldUnder(s, (dir, s.calls[c].slot))
            case DoInsertHandle(dir, c) =>
              if WriterOf(s.calls[c], dir).region.None? then t.handles == s.handles && t.held == s.held
              else
                && t.handles == s.handles[(dir, s.calls[c].slot) := WriterOf(s.calls[c], dir).region.value]
                && t.held == s.held - HeldUnder(s, (dir, s.calls[c].slot))
            case DoDropRequestHandle =>
              && t.handles == s.handles - {(Req, s.watcher.i)}
              && t.held == s.held - HeldUnder(s, (Req, s.watcher.i))
            case DoTryCreate(_, _, _) => t.handles == s.handles
            case _ => t.handles == s.handles && t.held == s.held
  {
    RunStep(run, acts, k);
    var s, a := run[k], acts[k];
    hide IsRun;
    if a.DoTryCreate? {
      CreateEffect(s, a.dir, a.c, a.fault);
      hide TryCreate;
    } else if a.DoVanish? {
      VanishEffect(s, a.name);
      hide Vanish;
    } else if Drops(a) {
      MapEffect(s, a);
      hide Step, Enabled;
    } else {
      HandlesStay(s, a);
      hide Step, Enabled;
    }
  }

  function HeldUnder(s: State, key: (Dir, nat)): set<nat> {
    if key in s.handles then {s.handles[key]} else {}
  }

  lemma MapEffect(s: State, a: Action)
    requires Shape(s) && Enabled(s, a) && Drops(a)
    ensures var t, key := Step(s, a), DropKey(s, a);
            if a.DoInsertHandle? then
              var region := WriterOf(s.calls[a.c], a.dir).region;
              if region.None? then t.handles == s.handles && t.held == s.held
              else t.handles == s.handles[key := region.value] && t.held == s.held - HeldUnder(s, key)
            else t.handles == s.handles - {key} && t.held == s.held - HeldUnder(s, key)
  {
    DropUnder(s, DropKey(s, a).0, DropKey(s, a).1);
    hide DropHandleOf, HeldUnder, WithPhase;
  }

  lemma DropUnder(s: State, dir: Dir, slot: nat)
    ensures var t := DropHandleOf(s, dir, slot);
            t.handles == s.handles - {(dir, slot)} && t.held == s.held - HeldUnder(s, (dir, slot))
  {
  }

  // ---- Held regions are named -----------------------------------------------------------------------------

  /** The name of a held region stands, and leads to it. */
  ghost predicate HeldNamed(s: State) {
    forall r :: r in s.held ==> r < |s.regions| && s.regions[r].name in s.names && s.names[s.regions[r].name] == r
  }

  lemma HeldNamedKept(s: State, t: State)
    requires HeldNamed(s) && SameRegions(s, t) && t.names == s.names && t.held <= s.held
    ensures HeldNamed(t)
  {
  }

  lemma HeldNamedCreate(s: State, dir: Dir, c: nat, fault: bool)
    requires HeldNamed(s) && CanTryCreate(s, dir, c) && SameRegions(s, TryCreate(s, dir, c, fault))
    ensures HeldNamed(TryCreate(s, dir, c, fault))
  {
    CreateEffect(s, dir, c, fault);
    hide TryCreate;
  }

  lemma HeldNamedVanish(s: State, name: Name)
    requires HeldNamed(s) && name in s.names && s.names[name] !in s.held
    ensures HeldNamed(Vanish(s, name))
  {
    VanishEffect(s, name);
    hide Vanish;
  }

  lemma HeldNamedOther(s: State, a: Action)
    requires Shape(s) && Enabled(s, a) && HeldNamed(s) && SameRegions(s, Step(s, a)) && !a.DoTryCreate? && !a.DoVanish?
    ensures HeldNamed(Step(s, a))
  {
    hide HeldNamed, SameRegions;
    if Drops(a) {
      DropEffect(s, a);
    } else {
      HandlesStay(s, a);
    }
    hide Step, Enabled;
    HeldNamedKept(s, Step(s, a));
  }

  lemma HeldNamedStep(s: State, a: Action)
    requires StageInv(s) && MemInv(s) && HeldNamed(s) && Enabled(s, a)
    ensures HeldNamed(Step(s, a))
  {
    StepOnward(s, a);
    assert Shape(s) && SameRegions(s, Step(s, a));
    hide StageInv, MemInv, Onward, HeldNamed, SameRegions, TryCreate, Vanish;
    match a
    case DoTryCreate(dir, c, fault) => HeldNamedCreate(s, dir, c, fault);
    case DoVanish(name) => HeldNamedVanish(s, name);
    case _ =>
      HeldNamedOther(s, a);
      hide *;
  }

  // ---- Who put a handle in a map -----------------------------------------------------------------------------

  /** A handle in a map was put there by the call that made the region. */
  ghost predicate HandlesMade(s: State) {
    forall key :: key in s.handles ==> HandleMade(s, key)
  }

  predicate HandleMade(s: State, key: (Dir, nat))
    requires key in s.handles
  {
    && s.handles[key] < |s.regions| && s.regions[s.handles[key]].maker.MadeBy?
    && s.regions[s.handles[key]].maker.dir == key.0 && s.regions[s.handles[key]].maker.c < |s.calls|
    && Inserted(s.PhaseOf(key.0, s.regions[s.handles[key]].maker.c))
  }

  lemma OwnRegion(s: State, dir: Dir, c: nat)
    requires RegionInv(s) && c < |s.calls| && WriterOf(s.calls[c], dir).region.Some?
    ensures var r := WriterOf(s.calls[c], dir).region.value; r < |s.regions| && s.regions[r].maker == MadeBy(dir, c)
  {
    assert CallRegions(s, c);
    hide LeadsTo, FilledPages;
  }

  lemma StillMade(s: State, a: Action, t: State, key: (Dir, nat))
    requires Onward(s, a, t) && key in s.handles && HandleMade(s, key) && key in t.handles
    requires t.handles[key] == s.handles[key]
    ensures HandleMade(t, key)
  {
  }

  lemma InsertMade(s: State, dir: Dir, c: nat)
    requires StageInv(s) && MemInv(s) && RegionInv(s) && HandlesMade(s) && CanWriter(s, dir, c, Inserting)
    ensures HandlesMade(InsertHandle(s, dir, c))
  {
    var t := InsertHandle(s, dir, c);
    InsertOnward(s, dir, c);
    hide InsertHandle, StageInv, MemInv, RegionInv, Onward;
    forall key | key in t.handles ensures HandleMade(t, key) {
      if key == (dir, s.calls[c].slot) && WriterOf(s.calls[c], dir).region.Some? {
        OwnRegion(s, dir, c);
      } else {
        assert HandleMade(s, key);
        hide HandleMade;
        StillMade(s, DoInsertHandle(dir, c), t, key);
      }
    }
  }

  lemma OnwardMade(s: State, a: Action, t: State)
    requires HandlesMade(s) && Onward(s, a, t)
    requires forall key :: key in t.handles ==> key in s.handles && t.handles[key] == s.handles[key]
    ensures HandlesMade(t)
  {
    hide Onward, HandleMade;
    forall key | key in t.handles ensures HandleMade(t, key) {
      assert HandleMade(s, key);
      StillMade(s, a, t, key);
    }
  }

  lemma DropMade(s: State, a: Action)
    requires Shape(s) && Enabled(s, a) && (a.DoDropStale? || a.DoDropRequestHandle?)
    ensures forall key :: key in Step(s, a).handles ==> key in s.handles && Step(s, a).handles[key] == s.handles[key]
  {
  }

  lemma HandlesOnlyLeave(s: State, a: Action)
    requires Shape(s) && Enabled(s, a) && !a.DoInsertHandle?
    ensures forall key :: key in Step(s, a).handles ==> key in s.handles && Step(s, a).handles[key] == s.handles[key]
  {
    if a.DoDropStale? || a.DoDropRequestHandle? {
      DropMade(s, a);
      hide Step, Enabled;
    } else if a.DoTryCreate? {
      CreateEffect(s, a.dir, a.c, a.fault);
      hide TryCreate;
    } else if a.DoVanish? {
      VanishEffect(s, a.name);
      hide Vanish;
    } else {
      HandlesStay(s, a);
      hide Step, Enabled;
    }
  }

  lemma HandlesMadeOther(s: State, a: Action)
    requires StageInv(s) && MemInv(s) && HandlesMade(s) && Enabled(s, a) && !a.DoInsertHandle?
    ensures HandlesMade(Step(s, a))
  {
    StepOnward(s, a);
    assert Shape(s);
    hide StageInv, MemInv, HandlesMade, Onward, Step, Enabled;
    HandlesOnlyLeave(s, a);
    OnwardMade(s, a, Step(s, a));
  }

  lemma HandlesMadeStep(s: State, a: Action)
    requires StageInv(s) && MemInv(s) && RegionInv(s) && HandlesMade(s) && Enabled(s, a)
    ensures HandlesMade(Step(s, a))
  {
    hide HandlesMade, StageInv, MemInv, RegionInv, InsertHandle;
    match a
    case DoInsertHandle(dir, c) =>
      InsertMade(s, dir, c);
    case _ =>
      HandlesMadeOther(s, a);
      hide *;
  }

  ghost predicate HandleInv(s: State) {
    HandlesMade(s) && HeldNamed(s)
  }

  lemma {:induction false} HandleRun(run: seq<State>, acts: seq<Action>, k: nat)
    requires IsRun(run, acts) && k < |run|
    ensures HandleInv(run[k])
  {
    assert |run| == |acts| + 1;
    if k == 0 {
      assert run[0].handles == map[] && run[0].held == {};
    } else {
      HandleRun(run, acts, k - 1);
      RunInv(run, acts, k - 1);
      RunStep(run, acts, k - 1);
      hide IsRun, StageInv, MemInv, RegionInv, ReaderInv, PendingInv, WakeInv, SyncInv, HandlesMade, HeldNamed, Step,
        Enabled;
      HandlesMadeStep(run[k - 1], acts[k - 1]);
      HeldNamedStep(run[k - 1], acts[k - 1]);
    }
  }

  // ---- Exactly which steps take a handle away ------------------------------------------------------------------

  /** Request `c` is in its slot, and the body of one of its directions in region `r`. */
  predicate Stays(s: State, dir: Dir, c: nat, r: nat) {
    c < |s.calls| && s.calls[c].stage.In? && WriterOf(s.calls[c], dir).region == Some(r)
  }

  /** The map still has region `r` for the slot of request `c`. */
  predicate Mapped(s: State, dir: Dir, c: nat, r: nat)
    requires c < |s.calls|
  {
    (dir, s.calls[c].slot) in s.handles && s.handles[(dir, s.calls[c].slot)] == r
  }

  /** A step that comes too late and takes the handle of `c`'s region with it: the insertion of its own
      handle by the same direction's writer of a request that the slot carried before, or the watcher's
      removal of the request handle for such a request. */
  predicate LateStep(s: State, a: Action, dir: Dir, c: nat, r: nat)
    requires Shape(s) && Enabled(s, a) && c < |s.calls|
  {
    && Mapped(s, dir, c, r)
    && (|| (dir == Req && a == DoDropRequestHandle && s.watcher.i == s.calls[c].slot && s.watcher.c != c)
        || (a.DoInsertHandle? && a.dir == dir && a.c != c && s.calls[a.c].slot == s.calls[c].slot
            && !s.calls[a.c].stage.In? && WriterOf(s.calls[a.c], dir).region.Some?))
  }

  lemma LossKey(s: State, key: (Dir, nat), dir: Dir, c: nat, r: nat)
    requires RegionInv(s) && HandlesMade(s) && Stays(s, dir, c, r) && key in s.handles && s.handles[key] == r
    ensures key == (dir, s.calls[c].slot) && Inserted(s.PhaseOf(dir, c))
  {
    assert CallRegions(s, c) && HandleMade(s, key);
  }

  lemma WritersElsewhere(s: State, dir: Dir, c: nat, r: nat, d: nat)
    requires StageInv(s) && Stays(s, dir, c, r) && d < |s.calls| && d != c && s.calls[d].slot == s.calls[c].slot
    ensures !s.calls[d].stage.In? && !Preparing(s.PhaseOf(Req, d)) && !Preparing(s.PhaseOf(Rsp, d))
  {
    assert CallFits(s, c) && CallFits(s, d);
  }

  lemma NotByStale(s: State, d: nat, dir: Dir, c: nat, r: nat)
    requires StageInv(s) && CanWriter(s, dir, d, Dropping) && Stays(s, dir, c, r) && Inserted(s.PhaseOf(dir, c))
    ensures s.calls[d].slot != s.calls[c].slot
  {
    if d != c && s.calls[d].slot == s.calls[c].slot {
      WritersElsewhere(s, dir, c, r, d);
    }
    hide StageInv;
  }

  lemma LossByInsert(s: State, d: nat, dir: Dir, c: nat, r: nat)
    requires StageInv(s) && CanWriter(s, dir, d, Inserting) && Stays(s, dir, c, r) && Inserted(s.PhaseOf(dir, c))
    requires s.calls[d].slot == s.calls[c].slot && Mapped(s, dir, c, r) && WriterOf(s.calls[d], dir).region.Some?
    ensures LateStep(s, DoInsertHandle(dir, d), dir, c, r)
  {
    assert d != c && Shape(s);
    WritersElsewhere(s, dir, c, r, d);
    hide StageInv, Mapped, Inserted;
  }

  lemma LossByWatcher(s: State, c: nat, r: nat)
    requires StageInv(s) && s.watcher.Freed? && Stays(s, Req, c, r)
    requires s.watcher.i == s.calls[c].slot && Mapped(s, Req, c, r)
    ensures LateStep(s, DoDropRequestHandle, Req, c, r)
  {
    assert Shape(s) && s.calls[s.watcher.c].stage == After(Taken);
    hide StageInv, Mapped;
  }

  lemma DropFacts(s: State, a: Action)
    requires Shape(s) && Enabled(s, a) && Drops(a)
    ensures a.DoDropStale? || a.DoInsertHandle? || a == DoDropRequestHandle
    ensures a.DoDropStale? ==> CanWriter(s, a.dir, a.c, Dropping) && DropKey(s, a) == (a.dir, s.calls[a.c].slot)
    ensures a.DoInsertHandle? ==> CanWriter(s, a.dir, a.c, Inserting) && DropKey(s, a) == (a.dir, s.calls[a.c].slot)
    ensures a.DoInsertHandle? && DropsAny(s, a) ==> WriterOf(s.calls[a.c], a.dir).region.Some?
    ensures a == DoDropRequestHandle ==> s.watcher.Freed? && DropKey(s, a) == (Req, s.watcher.i)
    ensures DropsAny(s, a) ==> DropKey(s, a) in s.handles
  {
  }

  lemma LossIsLate(s: State, a: Action, dir: Dir, c: nat, r: nat)
    requires StageInv(s) && RegionInv(s) && HandlesMade(s) && Enabled(s, a) && Stays(s, dir, c, r)
    requires Drops(a) && DropsAny(s, a) && s.handles[DropKey(s, a)] == r
    ensures LateStep(s, a, dir, c, r)
  {
    assert Shape(s) && c < |s.calls|;
    DropFacts(s, a);
    hide Drops, DropsAny, DropKey, Enabled, StageInv, RegionInv, HandlesMade, Inserted, Stays, LateStep;
    LossKey(s, DropKey(s, a), dir, c, r);
    assert Mapped(s, dir, c, r);
    if a.DoDropStale? {
      NotByStale(s, a.c, dir, c, r);
    } else if a.DoInsertHandle? {
      LossByInsert(s, a.c, dir, c, r);
    } else {
      LossByWatcher(s, c, r);
    }
  }

  lemma NoLoss(s: State, a: Action, r: nat)
    requires Shape(s) && Enabled(s, a) && !Drops(a) && r in s.held
    ensures r in Step(s, a).held
  {
    if a.DoTryCreate? {
      CreateEffect(s, a.dir, a.c, a.fault);
      hide TryCreate;
    } else if a.DoVanish? {
      VanishEffect(s, a.name);
      hide Vanish;
    } else {
      HandlesStay(s, a);
      hide Step, Enabled;
    }
  }

  lemma LateIsLoss(s: State, a: Action, dir: Dir, c: nat, r: nat)
    requires Shape(s) && Enabled(s, a) && c < |s.calls| && LateStep(s, a, dir, c, r)
    ensures Drops(a) && DropsAny(s, a) && s.handles[DropKey(s, a)] == r
  {
    hide ProgramOf;
  }

  lemma LossIff(s: State, a: Action, dir: Dir, c: nat, r: nat)
    requires StageInv(s) && RegionInv(s) && HandlesMade(s) && Enabled(s, a) && Stays(s, dir, c, r) && r in s.held
    ensures r !in Step(s, a).held <==> LateStep(s, a, dir, c, r)
  {
    assert Shape(s) && c < |s.calls|;
    hide StageInv, RegionInv, HandlesMade, Step, Enabled, LateStep, DropKey, DropsAny, Drops;
    if LateStep(s, a, dir, c, r) {
      LateIsLoss(s, a, dir, c, r);
    }
    if Drops(a) {
      DropEffect(s, a);
      if r !in Step(s, a).held {
        LossIsLate(s, a, dir, c, r);
      }
    } else {
      NoLoss(s, a, r);
    }
  }

  /** From its creation on, and for as long as its request is in its slot, a step takes away the handle
      of the region of a request or a response if and only if it is a late step of an earlier exchange on
      that slot. */
  lemma HandleLostIff(run: seq<State>, acts: seq<Action>, k: nat, dir: Dir, c: nat, r: nat)
    requires IsRun(run, acts) && k < |acts| && Stays(run[k], dir, c, r) && r in run[k].held
    ensures Shape(run[k]) && Enabled(run[k], acts[k])
    ensures r !in run[k + 1].held <==> LateStep(run[k], acts[k], dir, c, r)
  {
    RunInv(run, acts, k);
    RunStep(run, acts, k);
    HandleRun(run, acts, k);
    hide IsRun, StageInv, MemInv, RegionInv, ReaderInv, PendingInv, WakeInv, SyncInv, HandlesMade, HeldNamed, Step,
      Enabled, Stays, LateStep;
    LossIff(run[k], acts[k], dir, c, r);
  }

  lemma CreateStaysBack(s: State, d: nat, e: Dir, fault: bool, dir: Dir, c: nat, r: nat)
    requires CanTryCreate(s, e, d) && Stays(TryCreate(s, e, d, fault), dir, c, r)
    ensures Stays(s, dir, c, r) || (r == |s.regions| && r in TryCreate(s, e, d, fault).held)
  {
    CreateEffect(s, e, d, fault);
    hide TryCreate;
  }

  lemma OtherStaysBack(s: State, a: Action, t: State, dir: Dir, c: nat, r: nat)
    requires Onward(s, a, t) && !a.DoTryCreate? && Stays(t, dir, c, r)
    ensures Stays(s, dir, c, r)
  {
    assert if c < |s.calls| then CallStep(a, c, s.calls[c], t.calls[c]) else NewCall(t.calls[c]);
    hide Onward;
  }

  lemma StaysBack(s: State, a: Action, dir: Dir, c: nat, r: nat)
    requires StageInv(s) && MemInv(s) && Enabled(s, a) && Stays(Step(s, a), dir, c, r)
    ensures Stays(s, dir, c, r) || (r == |s.regions| && r in Step(s, a).held)
  {
    assert Shape(s);
    if a.DoTryCreate? {
      hide StageInv, MemInv, TryCreate, Stays;
      CreateStaysBack(s, a.c, a.dir, a.fault, dir, c, r);
    } else {
      hide Onward, Stays, Step, Enabled;
      StepOnward(s, a);
      hide StageInv, MemInv;
      OtherStaysBack(s, a, Step(s, a), dir, c, r);
    }
  }

  lemma StaysHasRegion(s: State, dir: Dir, c: nat, r: nat)
    requires RegionInv(s) && Stays(s, dir, c, r)
    ensures r < |s.regions|
  {
    OwnRegion(s, dir, c);
  }

  /** One step back in a run: the request was there with its region, or the region was new and held. */
  lemma RunStays(run: seq<State>, acts: seq<Action>, k: nat, dir: Dir, c: nat, r: nat)
    requires IsRun(run, acts) && k < |acts| && Stays(run[k + 1], dir, c, r)
    ensures |run[k].regions| <= |run[k + 1].regions|
    ensures if Stays(run[k], dir, c, r) then r < |run[k].regions| else r == |run[k].regions| && r in run[k + 1].held
  {
    RunInv(run, acts, k);
    RunStep(run, acts, k);
    hide IsRun, MemInv, RegionInv, ReaderInv, PendingInv, WakeInv, SyncInv, StageInv, Step, Enabled, Stays;
    StepOnward(run[k], acts[k]);
    hide CallsStep;
    StaysBack(run[k], acts[k], dir, c, r);
    if Stays(run[k], dir, c, r) {
      StaysHasRegion(run[k], dir, c, r);
    }
  }

  lemma {:induction false} RegionsGrow(run: seq<State>, acts: seq<Action>, j: nat, k: nat)
    requires IsRun(run, acts) && j <= k < |run|
    ensures |run[j].regions| <= |run[k].regions|
    decreases k
  {
    if j < k {
      RegionsGrow(run, acts, j, k - 1);
      RunInv(run, acts, k - 1);
      RunStep(run, acts, k - 1);
      hide IsRun, RegionInv, ReaderInv, PendingInv, WakeInv, SyncInv, StageInv, MemInv, Step, Enabled;
      StepOnward(run[k - 1], acts[k - 1]);
      hide CallsStep;
    }
  }

  /** Some step of the run before `k`, while the request was in its slot, was late. */
  ghost predicate LateBefore(run: seq<State>, acts: seq<Action>, k: nat, dir: Dir, c: nat, r: nat)
    requires k <= |acts| < |run|
  {
    exists j {:trigger LateAt(run, acts, j, dir, c, r)} :: 0 <= j < k && LateAt(run, acts, j, dir, c, r)
  }

  predicate LateAt(run: seq<State>, acts: seq<Action>, j: nat, dir: Dir, c: nat, r: nat)
    requires j < |acts| < |run|
  {
    Shape(run[j]) && Enabled(run[j], acts[j]) && Stays(run[j], dir, c, r) && LateStep(run[j], acts[j], dir, c, r)
  }

  lemma NoneLateYet(run: seq<State>, acts: seq<Action>, k: nat, dir: Dir, c: nat, r: nat)
    requires IsRun(run, acts) && k < |acts| && r == |run[k].regions|
    ensures !LateBefore(run, acts, k + 1, dir, c, r)
  {
    if LateBefore(run, acts, k + 1, dir, c, r) {
      var j :| 0 <= j < k + 1 && LateAt(run, acts, j, dir, c, r);
      RegionsGrow(run, acts, j, k);
      RunInv(run, acts, j);
      StaysHasRegion(run[j], dir, c, r);
      hide *;
    }
  }

  /** In every state of every run in which a request is in its slot, an overflow region of its request or
      of its response is held exactly if no late step has come since the region was created. */
  lemma {:induction false} HeldExactly(run: seq<State>, acts: seq<Action>, k: nat, dir: Dir, c: nat, r: nat)
    requires IsRun(run, acts) && k < |run| && Stays(run[k], dir, c, r)
    ensures k <= |acts| < |run|
    ensures r in run[k].held <==> !LateBefore(run, acts, k, dir, c, r)
  {
    assert |run| == |acts| + 1;
    if k == 0 {
      assert false;
    } else {
      var j := k - 1;
      RunStays(run, acts, j, dir, c, r);
      if Stays(run[j], dir, c, r) {
        HeldExactly(run, acts, j, dir, c, r);
        RunStep(run, acts, j);
        if r in run[j].held {
          HandleLostIff(run, acts, j, dir, c, r);
        } else {
          NeverRegained(run[j], acts[j], r);
        }
        hide IsRun, Stays, LateStep, Step, Enabled;
        assert LateBefore(run, acts, k, dir, c, r) <==>
                 LateBefore(run, acts, j, dir, c, r) || LateAt(run, acts, j, dir, c, r);
      } else {
        NoneLateYet(run, acts, j, dir, c, r);
        hide *;
      }
    }
  }

  // ---- When none will ---------------------------------------------------------------------------------------------

  /** This direction's writer of request `c` has inserted its handle, the watcher is not about to drop a
      request handle of this slot, and no earlier writer on the slot still has a handle to insert. */
  predicate Undisturbed(s: State, dir: Dir, c: nat)
    requires c < |s.calls|
  {
    && Inserted(s.PhaseOf(dir, c))
    && (dir == Req ==> !(s.watcher.Freed? && s.watcher.i == s.calls[c].slot))
    && forall d :: 0 <= d < |s.calls| && d != c ==> !(Inserts(s, dir, d) && s.calls[d].slot == s.calls[c].slot)
  }

  predicate Inserts(s: State, dir: Dir, d: nat)
    requires d < |s.calls|
  {
    s.PhaseOf(dir, d) == Inserting && WriterOf(s.calls[d], dir).region.Some?
  }

  lemma NotFreed(s: State, dir: Dir, c: nat, r: nat)
    requires StageInv(s) && CanFree(s) && Stays(s, dir, c, r) && Stays(FreeSlot(s), dir, c, r)
    ensures s.watcher.i != s.calls[c].slot
  {
    FreeEffect(s);
    assert CallFits(s, c);
    hide StageInv, FreeSlot;
  }

  lemma NotInserting(s: State, a: Action, t: State, dir: Dir, c: nat, r: nat, d: nat)
    requires StageInv(s) && Onward(s, a, t) && Stays(s, dir, c, r) && Undisturbed(s, dir, c)
    requires c < |t.calls| && t.calls[c].slot == s.calls[c].slot && d < |t.calls| && d != c
    ensures !(Inserts(t, dir, d) && t.calls[d].slot == t.calls[c].slot)
  {
    if d < |s.calls| && s.PhaseOf(dir, d).Storing? && s.calls[d].slot == s.calls[c].slot {
      WritersElsewhere(s, dir, c, r, d);
    }
    assert d < |s.calls| ==>
             CallStep(a, d, s.calls[d], t.calls[d]) && !(Inserts(s, dir, d) && s.calls[d].slot == s.calls[c].slot);
    assert d >= |s.calls| ==> NewCall(t.calls[d]);
    hide StageInv, Onward, Undisturbed;
  }

  lemma UndisturbedStep(s: State, a: Action, dir: Dir, c: nat, r: nat)
    requires StageInv(s) && MemInv(s) && Enabled(s, a) && Stays(s, dir, c, r) && Stays(Step(s, a), dir, c, r)
    requires Undisturbed(s, dir, c)
    ensures Undisturbed(Step(s, a), dir, c)
  {
    var t := Step(s, a);
    StepOnward(s, a);
    assert Shape(s) && CallStep(a, c, s.calls[c], t.calls[c]);
    if a == DoFree {
      NotFreed(s, dir, c, r);
      assert t == FreeSlot(s);
      FreeEffect(s);
    }
    hide MemInv, Step, Enabled, FreeSlot;
    forall d | 0 <= d < |t.calls| && d != c ensures !(Inserts(t, dir, d) && t.calls[d].slot == t.calls[c].slot) {
      NotInserting(s, a, t, dir, c, r, d);
    }
    hide StageInv, CallsStep, Stays, Inserts;
  }

  lemma UndisturbedHolds(s: State, a: Action, dir: Dir, c: nat, r: nat)
    requires StageInv(s) && RegionInv(s) && HandlesMade(s) && Enabled(s, a) && Stays(s, dir, c, r) && r in s.held
    requires Undisturbed(s, dir, c)
    ensures r in Step(s, a).held
  {
    LossIff(s, a, dir, c, r);
    hide StageInv, RegionInv, HandlesMade, Step;
  }

  /** A caller can rely on this: once a request is undisturbed, it stays so, and its region keeps its
      handle for as long as the request is in its slot. */
  lemma {:induction false} HandleSurvives(run: seq<State>, acts: seq<Action>, j: nat, k: nat, dir: Dir, c: nat, r: nat)
    requires IsRun(run, acts) && j <= k < |run|
    requires Stays(run[j], dir, c, r) && Undisturbed(run[j], dir, c) && r in run[j].held && Stays(run[k], dir, c, r)
    ensures Undisturbed(run[k], dir, c) && r in run[k].held
    decreases k
  {
    if j < k {
      RunStays(run, acts, k - 1, dir, c, r);
      RegionsGrow(run, acts, j, k - 1);
      RunInv(run, acts, j);
      StaysHasRegion(run[j], dir, c, r);
      HandleSurvives(run, acts, j, k - 1, dir, c, r);
      RunInv(run, acts, k - 1);
      RunStep(run, acts, k - 1);
      HandleRun(run, acts, k - 1);
      hide IsRun, StageInv, MemInv, RegionInv, ReaderInv, PendingInv, WakeInv, SyncInv, HandlesMade, HeldNamed, Step,
        Enabled, Stays, Undisturbed;
      UndisturbedStep(run[k - 1], acts[k - 1], dir, c, r);
      UndisturbedHolds(run[k - 1], acts[k - 1], dir, c, r);
    }
  }
}
