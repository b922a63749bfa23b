/** Overflowed bodies: a reader gets exactly what its slot's current writer wrote, or an error. */
module Spills {
  import opened Bytes
  import opened Layout
  import opened Slots
  import opened Protocol
  import opened Stages
  import opened Memory
  import opened Regions
  import opened Readers
  import opened Pending
  import opened Wakeups
  import opened SyncHandlers
  import opened Runs
  import opened Handles

  /** The request that occupies the slot a reader is at. */
  function Occupant(s: State, dir: Dir): nat
    requires Shape(s)
  {
    var r := ReaderOf(s, dir);
    if !r.Waiting? && r.i < |s.occ| then s.occ[r.i] else 0
  }

  lemma WriterComplete(g: Geometry, dir: Dir, i: nat, id: seq<byte>, w: Writer)
    requires WriterFits(g, dir, i, id, w) && Published(dir, w.phase)
    ensures w.region.Some? <==> PlaceOf(g, dir, i, w.payload).Spill?
  {
    hide Program, PlaceOf;
  }

  lemma ReadComplete(s: State, dir: Dir)
    requires StageInv(s) && MemInv(s) && ReaderInv(s) && Reading(ReaderOf(s, dir))
    ensures var c := Occupant(s, dir);
            && c < |s.calls| && s.calls[c].slot == ReaderOf(s, dir).i && ReadsCall(s.calls[c], dir, ReaderOf(s, dir))
            && s.calls[c].stage == In(if dir == Req then Claimed else Done)
            && (WriterOf(s.calls[c], dir).region.Some? <==> PlaceOf(s.g, dir, s.calls[c].slot,
                                                            WriterOf(s.calls[c], dir).payload).Spill?)
  {
    OccupantReading(s);
    var c := Occupant(s, dir);
    assert CallFits(s, c) && CallMem(s, c);
    assert ReadsCall(s.calls[c], dir, ReaderOf(s, dir)) && Published(dir, s.PhaseOf(dir, c));
    hide StageInv, MemInv, ReaderInv, WriterFits, InPlace, ReadsCall;
    WriterComplete(s.g, dir, s.calls[c].slot, s.calls[c].id, WriterOf(s.calls[c], dir));
  }

  /** A finished read is the whole payload that the slot's current occupant wrote, up to the casts, or
      an error that only a spilled body can meet. It is never made of bytes of another cycle, another
      slot or the other direction. */
  lemma ExactOrError(run: seq<State>, acts: seq<Action>, k: nat, dir: Dir)
    requires IsRun(run, acts) && k < |run| && ReaderOf(run[k], dir).Got?
    ensures Shape(run[k]) && Occupant(run[k], dir) < |run[k].calls|
    ensures var call, r := run[k].calls[Occupant(run[k], dir)], ReaderOf(run[k], dir);
            && call.slot == r.i && r.id == ReceivedId(call.id)
            && match r.result {
                 case Some(q) => q == Received(dir, WriterOf(call, dir).payload)
                 case None => PlaceOf(run[k].g, dir, call.slot, WriterOf(call, dir).payload).Spill?
               }
  {
    RunInv(run, acts, k);
    hide IsRun, StageInv, MemInv, RegionInv, ReaderInv, PendingInv, WakeInv, SyncInv;
    ReadComplete(run[k], dir);
    hide Received, ReceivedId;
  }

  lemma UnfoundNotHeld(s: State, dir: Dir, c: nat)
    requires RegionInv(s) && HeldNamed(s) && c < |s.calls|
    requires Unfound(s.names, dir, s.calls[c].slot, WriterOf(s.calls[c], dir))
    ensures WriterOf(s.calls[c], dir).region.value !in s.held
  {
    assert CallRegions(s, c);
  }

  lemma OccupantSlot(s: State, dir: Dir)
    requires StageInv(s) && Reading(ReaderOf(s, dir))
    ensures var c := Occupant(s, dir);
            c < |s.calls| && s.calls[c].slot == ReaderOf(s, dir).i && c == s.occ[ReaderOf(s, dir).i]
  {
    OccupantReading(s);
  }

  /** A read turns into an error exactly when it comes to open the region of a spilled body and the
      region's name is gone, which it can only be once its handle has been dropped. */
  lemma FailsExactly(run: seq<State>, acts: seq<Action>, k: nat, dir: Dir)
    requires IsRun(run, acts) && k < |acts| && acts[k] == DoRead(dir)
    ensures Shape(run[k]) && Occupant(run[k], dir) < |run[k].calls| && !ReaderOf(run[k], dir).Waiting?
    ensures var s, r := run[k], ReaderOf(run[k + 1], dir);
            var w := WriterOf(s.calls[Occupant(s, dir)], dir);
            && (r.Got? && r.result.None? <==> ReaderOf(s, dir).AtBody? && Unfound(s.names, dir, ReaderOf(s, dir).i, w))
            && (r.Got? && r.result.None? ==> w.region.value !in s.held)
  {
    var s := run[k];
    RunInv(run, acts, k);
    RunStep(run, acts, k);
    HandleRun(run, acts, k);
    assert CanRead(s, dir) && run[k + 1] == Read(s, dir);
    hide IsRun, StageInv, MemInv, RegionInv, ReaderInv, PendingInv, WakeInv, SyncInv, HandlesMade, HeldNamed, Read,
      Unfound;
    ReadFailsIff(s, dir);
    OccupantSlot(s, dir);
    if Unfound(s.names, dir, ReaderOf(s, dir).i, WriterOf(s.calls[Occupant(s, dir)], dir)) {
      UnfoundNotHeld(s, dir, Occupant(s, dir));
    }
  }

  lemma CopyingOwn(s: State, dir: Dir)
    requires StageInv(s) && MemInv(s) && RegionInv(s) && ReaderInv(s) && ReaderOf(s, dir).Copying?
    ensures var c, r := Occupant(s, dir), ReaderOf(s, dir).region;
            && c < |s.calls| && r < |s.regions| && s.regions[r].maker == MadeBy(dir, c)
            && |WriterOf(s.calls[c], dir).payload.body| <= |s.regions[r].data|
            && s.regions[r].data[..|WriterOf(s.calls[c], dir).payload.body|] == WriterOf(s.calls[c], dir).payload.body
  {
    ReadComplete(s, dir);
    var c := Occupant(s, dir);
    assert CallRegions(s, c) && CallFits(s, c);
    hide StageInv, MemInv, RegionInv, ReaderInv, LeadsTo;
  }

  /** A region being copied was made by the very call whose request is being read, and holds that
      call's body, however early or late any handle has been dropped. */
  lemma CopiesOwnRegion(run: seq<State>, acts: seq<Action>, k: nat, dir: Dir)
    requires IsRun(run, acts) && k < |run| && ReaderOf(run[k], dir).Copying?
    ensures Shape(run[k])
    ensures var s, c, r := run[k], Occupant(run[k], dir), ReaderOf(run[k], dir).region;
            && c < |s.calls| && r < |s.regions| && s.regions[r].maker == MadeBy(dir, c)
            && |WriterOf(s.calls[c], dir).payload.body| <= |s.regions[r].data|
            && s.regions[r].data[..|WriterOf(s.calls[c], dir).payload.body|] == WriterOf(s.calls[c], dir).payload.body
  {
    RunInv(run, acts, k);
    hide IsRun, StageInv, MemInv, RegionInv, ReaderInv, PendingInv, WakeInv, SyncInv;
    CopyingOwn(run[k], dir);
  }

  lemma HeldWhileDone(s: State, c: nat)
    requires SyncInv(s) && s.sync && c < |s.calls|
    ensures s.calls[c].stage != After(ResponseUnread)
    ensures s.calls[c].stage == In(Done) && s.calls[c].rsp.region.Some? ==>
              s.calls[c].rsp.region.value in s.held && s.calls[c].rsp.marker > 0
              && Name(Rsp, s.calls[c].slot, s.calls[c].rsp.marker - 1) in s.names
  {
    assert CallSync(s, c);
  }

  /** With handlers that answer on the receive thread, the region of a spilled response is held and
      named for as long as its slot is Done, and so the watcher never fails to read a response. */
  lemma SynchronousNeverFails(run: seq<State>, acts: seq<Action>, k: nat, c: nat)
    requires IsRun(run, acts) && k < |run| && run[k].sync
    ensures run[k].watcher.Got? || run[k].watcher.Freed? || run[k].watcher.Resolving? ==> run[k].watcher.result.Some?
    ensures c < |run[k].calls| ==> run[k].calls[c].stage != After(ResponseUnread)
    ensures c < |run[k].calls| && run[k].calls[c].stage == In(Done) && run[k].calls[c].rsp.region.Some? ==>
              var call := run[k].calls[c];
              call.rsp.region.value in run[k].held && call.rsp.marker > 0
              && Name(Rsp, call.slot, call.rsp.marker - 1) in run[k].names
  {
    RunInv(run, acts, k);
    hide IsRun, StageInv, MemInv, RegionInv, ReaderInv, PendingInv, WakeInv;
    if c < |run[k].calls| {
      HeldWhileDone(run[k], c);
    }
  }
}
