/** Data-race freedom: bytes one thread may be writing are bytes no other thread may be touching. */
module Races {
  import opened Bytes
  import opened Layout
  import opened Slots
  import opened Protocol
  import opened Stages
  import opened Memory
  import opened Regions
  import opened Readers
  import opened Pending
  import opened Wakeups
  import opened SyncHandlers
  import opened Runs

  datatype Thread = Dispatcher(c: nat) | Responder(c: nat) | Worker | Watcher

  /** A dispatch or `send_response` call between claiming its slot and publishing or giving up may
      write any byte of its direction's footprint. */
  predicate MayWrite(s: State, th: Thread, a: nat) {
    match th
    case Dispatcher(c) => c < |s.calls| && Preparing(s.calls[c].req.phase)
         && ByteInFootprint(s.g, Req, s.calls[c].slot, a)
    case Responder(c) => c < |s.calls| && Preparing(s.calls[c].rsp.phase)
         && ByteInFootprint(s.g, Rsp, s.calls[c].slot, a)
    case _ => false
  }

  predicate ReadBy(g: Geometry, dir: Dir, i: nat, a: nat) {
    || ByteInFootprint(g, dir, i, a)
    || SlotBase(i) + 4 <= a < SlotBase(i) + 40   // both readers read the request id
  }

  /** The receive loop reading a claimed request, or the watcher reading a finished response. */
  predicate MayRead(s: State, th: Thread, a: nat) {
    match th
    case Worker => Reading(s.worker) && ReadBy(s.g, Req, s.worker.i, a)
    case Watcher => Reading(s.watcher) && ReadBy(s.g, Rsp, s.watcher.i, a)
    case _ => false
  }

  /** The slot, direction and status under which a thread may write. */
  lemma WriterOwns(s: State, th: Thread, a: nat)
    requires StageInv(s) && MayWrite(s, th, a)
    ensures th.Dispatcher? || th.Responder?
    ensures th.c < |s.calls| && s.calls[th.c].slot < s.g.numSlots && s.occ[s.calls[th.c].slot] == th.c
    ensures s.status[s.calls[th.c].slot] == if th.Dispatcher? then Writing else Claimed
    ensures th.Responder? ==> s.calls[th.c].rsp.phase != Idle
  {
    assert CallFits(s, th.c);
  }

  lemma WritersApart(s: State, th: Thread, th': Thread, a: nat)
    requires StageInv(s) && th != th' && MayWrite(s, th, a)
    ensures !MayWrite(s, th', a)
  {
    if MayWrite(s, th', a) {
      WriterOwns(s, th, a);
      WriterOwns(s, th', a);
      hide StageInv;
      var i, i' := s.calls[th.c].slot, s.calls[th'.c].slot;
      FootprintsDisjoint(s.g, if th.Dispatcher? then Req else Rsp, i, if th'.Dispatcher? then Req else Rsp, i', a);
    }
  }

  lemma ReaderApart(s: State, th: Thread, th': Thread, a: nat)
    requires StageInv(s) && MayWrite(s, th, a)
    ensures !MayRead(s, th', a)
  {
    if MayRead(s, th', a) {
      WriterOwns(s, th, a);
      OccupantReading(s);
      var i := s.calls[th.c].slot;
      var dir := if th.Dispatcher? then Req else Rsp;
      if th' == Worker {
        assert s.worker.i != i || dir == Rsp;
        hide StageInv;
        FootprintsDisjoint(s.g, dir, i, Req, s.worker.i, a);
      } else {
        assert s.watcher.i != i;
        hide StageInv;
        FootprintsDisjoint(s.g, dir, i, Rsp, s.watcher.i, a);
        FootprintsDisjoint(s.g, dir, i, Req, s.watcher.i, a);
      }
    }
  }

  /** In every state of every run, a byte that one thread may be writing is a byte that no other
      thread may be writing or reading. */
  lemma DataRaceFreedom(run: seq<State>, acts: seq<Action>, k: nat, th: Thread, th': Thread, a: nat)
    requires IsRun(run, acts) && k < |run| && th != th'
    requires MayWrite(run[k], th, a)
    ensures !MayWrite(run[k], th', a) && !MayRead(run[k], th', a)
  {
    RunInv(run, acts, k);
    hide IsRun, MayWrite, MayRead, StageInv;
    WritersApart(run[k], th, th', a);
    ReaderApart(run[k], th, th', a);
  }

  lemma OnlyWritesChangeBytes(s: State, act: Action)
    requires Shape(s) && Enabled(s, act) && !act.DoWriteNext?
    ensures Step(s, act).mem == s.mem
  {
    hide Start, Claim, Register, DropStale, TryCreate, Fill, Publish, Abort, InsertHandle, Signal, Wake, Scan, Read,
      FinishRead, Respond, LeaveHandler, FreeSlot, DropRequestHandle, Resolve, Vanish, ProgramOf, FreshId;
  }

  lemma StepWritesOwn(s: State, act: Action, a: nat)
    requires StageInv(s) && MemInv(s) && Enabled(s, act) && a < |s.mem| && Step(s, act).mem[a] != s.mem[a]
    ensures act.DoWriteNext?
    ensures MayWrite(s, if act.dir == Req then Dispatcher(act.c) else Responder(act.c), a)
  {
    hide Program, MemInv;
    if !act.DoWriteNext? {
      OnlyWritesChangeBytes(s, act);
    } else {
      assert Step(s, act) == WriteNext(s, act.dir, act.c);
      hide Step;
      WriteChangesOwn(s, act.dir, act.c, a);
    }
  }

  /** The claim covers every write there is: a byte that a step of a run changes is one that the step's
      thread may write. */
  lemma StepsWriteOwnBytes(run: seq<State>, acts: seq<Action>, k: nat, a: nat)
    requires IsRun(run, acts) && k < |acts|
    requires a < |run[k].mem| && a < |run[k + 1].mem| && run[k + 1].mem[a] != run[k].mem[a]
    ensures acts[k].DoWriteNext?
    ensures MayWrite(run[k], if acts[k].dir == Req then Dispatcher(acts[k].c) else Responder(acts[k].c), a)
  {
    RunInv(run, acts, k);
    RunStep(run, acts, k);
    hide IsRun, StageInv, MemInv, RegionInv, ReaderInv, PendingInv, WakeInv, SyncInv, Step, Enabled, MayWrite;
    StepWritesOwn(run[k], acts[k], a);
  }

  lemma WriteChangesOwn(s: State, dir: Dir, c: nat, a: nat)
    requires StageInv(s) && MemInv(s) && CanWriteNext(s, dir, c) && a < |s.mem|
    requires WriteNext(s, dir, c).mem[a] != s.mem[a]
    ensures MayWrite(s, if dir == Req then Dispatcher(c) else Responder(c), a)
  {
    hide Program, MemInv;
    assert NextWrite(s, dir, s.calls[c], s.PhaseOf(dir, c).k).Make?;
    assert CallFits(s, c);
    WriteInFootprint(s, dir, c);
    hide StageInv;
  }

  // ---- Reads --------------------------------------------------------------------------------------

  lemma StoredLocal(mem: seq<byte>, mem': seq<byte>, g: Geometry, dir: Dir, i: nat, id: seq<byte>, p: Payload,
                    marker: nat)
    requires |mem| == |mem'| && MetaFits(g, dir, p)
    requires forall a :: 0 <= a < |mem| && ByteInFootprint(g, dir, i, a) ==> mem'[a] == mem[a]
    requires Stored(mem, g, dir, i, id, p, marker)
    ensures Stored(mem', g, dir, i, id, p, marker)
  {
    var ws := Settled(g, dir, i, id, p, marker);
    SettledInFootprint(g, dir, i, id, p, marker);
    hide Settled, MetaFits;
    forall j | 0 <= j < |ws| ensures At(mem', ws[j]) {
      assert At(mem, ws[j]) && InFootprint(g, dir, i, ws[j]);
      AtLocal(mem, mem', g, dir, i, ws[j]);
    }
  }

  lemma AtLocal(mem: seq<byte>, mem': seq<byte>, g: Geometry, dir: Dir, i: nat, w: Write)
    requires |mem| == |mem'| && At(mem, w) && InFootprint(g, dir, i, w)
    requires forall a :: 0 <= a < |mem| && ByteInFootprint(g, dir, i, a) ==> mem'[a] == mem[a]
    ensures At(mem', w)
  {
    forall a | w.off <= a < w.off + |w.data| ensures mem'[a] == mem[a] {
      assert ByteInFootprint(g, dir, i, a);
    }
    assert mem'[w.off..w.off + |w.data|] == mem[w.off..w.off + |w.data|];
  }

  lemma HeadLocal(mem: seq<byte>, mem': seq<byte>, g: Geometry, dir: Dir, i: nat)
    requires |mem| == |mem'| && SlotBase(i) + SLOT_META_SIZE <= |mem|
    requires forall a :: 0 <= a < |mem| && ReadBy(g, dir, i, a) ==> mem'[a] == mem[a]
    ensures DecodeId(mem', i) == DecodeId(mem, i) && DecodeTag(mem', dir, i) == DecodeTag(mem, dir, i)
  {
    assert mem'[SlotBase(i) + 4..SlotBase(i) + 40] == mem[SlotBase(i) + 4..SlotBase(i) + 40];
    if dir == Rsp {
      assert forall a :: SlotBase(i) + 64 <= a < SlotBase(i) + 66 ==> ReadBy(g, dir, i, a);
      assert mem'[SlotBase(i) + 64..SlotBase(i) + 66] == mem[SlotBase(i) + 64..SlotBase(i) + 66];
    } else {
      assert ReadBy(g, dir, i, SlotBase(i) + 40);
    }
  }

  lemma ReadDependsOnOwn(s: State, dir: Dir, mem': seq<byte>)
    requires Shape(s) && StageInv(s) && MemInv(s) && RegionInv(s) && CanRead(s, dir) && |mem'| == |s.mem|
    requires forall a :: 0 <= a < |s.mem| && ReadBy(s.g, dir, ReaderOf(s, dir).i, a) ==> mem'[a] == s.mem[a]
    ensures ReaderOf(Read(s.(mem := mem'), dir), dir) == ReaderOf(Read(s, dir), dir)
  {
    hide Program, DecodeMeta, DecodeBody, DecodeId, DecodeTag, Stored, MemInv, RegionInv, RegionOk, LeadsTo, StageInv;
    DataInPlace(s, dir);
    var i := ReaderOf(s, dir).i;
    var call := s.calls[s.occ[i]];
    var w := WriterOf(call, dir);
    SlotInMapping(s.g, i);
    HeadLocal(s.mem, mem', s.g, dir, i);
    hide ReadBy;
    BodyLocal(s, dir, i, call.id, w, mem');
  }

  /** The claim covers every read too: were all other bytes different, the next read of a reader in a
      run would still give the same. */
  lemma ReadsDependOnOwnBytes(run: seq<State>, acts: seq<Action>, k: nat, dir: Dir, mem': seq<byte>)
    requires IsRun(run, acts) && k < |run| && CanRead(run[k], dir) && |mem'| == |run[k].mem|
    requires forall a :: 0 <= a < |mem'| && ReadBy(run[k].g, dir, ReaderOf(run[k], dir).i, a) ==>
               mem'[a] == run[k].mem[a]
    ensures Shape(run[k])
    ensures ReaderOf(Read(run[k].(mem := mem'), dir), dir) == ReaderOf(Read(run[k], dir), dir)
  {
    RunInv(run, acts, k);
    hide IsRun, StageInv, MemInv, RegionInv, ReaderInv, PendingInv, WakeInv, SyncInv, CanRead, Read, ReadBy;
    ReadDependsOnOwn(run[k], dir, mem');
  }

  lemma BodyLocal(s: State, dir: Dir, i: nat, id: seq<byte>, w: Writer, mem': seq<byte>)
    requires Shape(s) && i < s.g.numSlots && |mem'| == |s.mem| && SlotBase(i) + SLOT_META_SIZE <= |s.mem|
    requires forall a :: 0 <= a < |s.mem| && ReadBy(s.g, dir, i, a) ==> mem'[a] == s.mem[a]
    requires StoredBy(s.mem, s.g, dir, i, id, w) && Complete(s.g, dir, i, w)
    ensures DecodeMeta(mem', s.g, dir, i) == DecodeMeta(s.mem, s.g, dir, i)
    ensures DecodeBody(mem', s.g, dir, i) == DecodeBody(s.mem, s.g, dir, i)
  {
    hide DecodeMeta, DecodeBody, Stored, ByteInFootprint;
    assert forall a :: ByteInFootprint(s.g, dir, i, a) ==> ReadBy(s.g, dir, i, a);
    StoredLocal(s.mem, mem', s.g, dir, i, id, w.payload, w.marker);
    StoredMeta(s.mem, s.g, dir, i, id, w.payload, w.marker);
    StoredMeta(mem', s.g, dir, i, id, w.payload, w.marker);
    assert MarkerOk(s.g, dir, i, w.payload, w.marker);
    StoredBody(s.mem, s.g, dir, i, id, w.payload, w.marker);
    StoredBody(mem', s.g, dir, i, id, w.payload, w.marker);
  }

  lemma RegionsApart(s: State, dir: Dir, c: nat, dir': Dir)
    requires StageInv(s) && RegionInv(s) && ReaderInv(s)
    requires c < |s.calls| && s.PhaseOf(dir, c) == Filling && ReaderOf(s, dir').Copying?
    ensures WriterOf(s.calls[c], dir).region != Some(ReaderOf(s, dir').region)
  {
    OccupantReading(s);
    var d := s.occ[ReaderOf(s, dir').i];
    assert CallRegions(s, c) && CallRegions(s, d) && CallFits(s, c) && CallFits(s, d);
    assert ReadsCall(s.calls[d], dir', ReaderOf(s, dir'));
  }

  /** Overflow regions have no races either: a region being filled is never one being copied. */
  lemma RegionRaceFreedom(run: seq<State>, acts: seq<Action>, k: nat, dir: Dir, c: nat, dir': Dir)
    requires IsRun(run, acts) && k < |run|
    requires c < |run[k].calls| && run[k].PhaseOf(dir, c) == Filling && ReaderOf(run[k], dir').Copying?
    ensures WriterOf(run[k].calls[c], dir).region != Some(ReaderOf(run[k], dir').region)
  {
    RunInv(run, acts, k);
    hide IsRun, StageInv, RegionInv, ReaderInv;
    RegionsApart(run[k], dir, c, dir');
  }
}
