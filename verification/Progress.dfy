/** How slots move: every status change is one the protocol allows and is made by the slot's owner,
    no wake-up is lost, placement never depends on traffic, and a bus without new dispatches drains. */
module Progress {
  import opened Bytes
  import opened Layout
  import opened Protocol
  import opened Stages
  import opened Memory
  import opened Regions
  import opened Readers
  import opened Wakeups
  import opened Runs
  import opened Delivery

  // ---- Status words ------------------------------------------------------------------------------

  /** Free -> Writing -> Ready -> Claimed -> Done -> Free, and the three ways back after a failure. */
  predicate Edge(x: Status, y: Status) {
    match x
    case Free => y == Writing
    case Writing => y == Ready || y == Free
    case Ready => y == Claimed
    case Claimed => y == Done || y == Free
    case Done => y == Free
  }

  /** The one action that can take a slot along an edge, for the slot's occupant. */
  predicate MovedBy(s: State, a: Action, i: nat, x: Status, y: Status)
    requires Shape(s) && i < s.g.numSlots
  {
    match (x, y)
    case (Free, Writing) => a.DoClaim?
    case (Writing, Ready) => a == DoPublish(Req, s.occ[i])
    case (Writing, Free) => a == DoAbort(Req, s.occ[i])
    case (Ready, Claimed) => a == DoScan(Req)
    case (Claimed, Done) => a == DoPublish(Rsp, s.occ[i])
    case (Claimed, Free) => a == DoAbort(Rsp, s.occ[i])
           || (a == DoFinishRead && s.worker.Got? && s.worker.i == i && s.worker.result == None)
    case (Done, Free) => a == DoFree && s.watcher.Got? && s.watcher.i == i
    case _ => false
  }

  lemma StoresExchange(s: State, a: Action)
    requires StageInv(s) && Enabled(s, a)
    ensures a.DoPublish? ==>
              s.occ[s.calls[a.c].slot] == a.c
              && s.status[s.calls[a.c].slot] == if a.dir == Req then Writing else Claimed
    ensures a.DoAbort? ==>
              s.occ[s.calls[a.c].slot] == a.c
              && s.status[s.calls[a.c].slot] == if a.dir == Req then Writing else Claimed
    ensures a.DoFinishRead? ==> s.status[s.worker.i] == Claimed
    ensures a.DoFree? ==> s.status[s.watcher.i] == Done
  {
    hide ProgramOf;
    if a.DoPublish? || a.DoAbort? {
      assert CallFits(s, a.c);
    }
  }

  /** Either writer of the request is on its way to a status store. */
  predicate AtWork(s: State, c: nat)
    requires c < |s.calls|
  {
    Preparing(s.PhaseOf(Req, c)) || Preparing(s.PhaseOf(Rsp, c))
  }

  /** While the worker has a slot to read or give up, no dispatch and no `send_response` is at it. */
  lemma WorkerAlone(s: State)
    requires StageInv(s) && CanFinishRead(s)
    ensures var c := s.occ[s.worker.i];
            c < |s.calls| && s.calls[c].slot == s.worker.i && s.calls[c].rsp.phase == Idle
    ensures forall d :: 0 <= d < |s.calls| && s.calls[d].slot == s.worker.i ==> !AtWork(s, d)
  {
    FinishReadEffect(s);
    forall d | 0 <= d < |s.calls| && s.calls[d].slot == s.worker.i ensures !AtWork(s, d) {
      assert CallFits(s, d);
    }
  }

  lemma StoresAreExchanges(run: seq<State>, acts: seq<Action>, k: nat)
    requires IsRun(run, acts) && k < |acts|
    ensures var s, a := run[k], acts[k];
            && Shape(s) && Enabled(s, a)
            && (a.DoPublish? || a.DoAbort? ==>
                  && s.occ[s.calls[a.c].slot] == a.c
                  && s.status[s.calls[a.c].slot] == if a.dir == Req then Writing else Claimed)
            && (a.DoFinishRead? ==>
                  && s.status[s.worker.i] == Claimed && s.occ[s.worker.i] < |s.calls|
                  && s.calls[s.occ[s.worker.i]].slot == s.worker.i && s.calls[s.occ[s.worker.i]].rsp.phase == Idle
                  && forall c :: 0 <= c < |s.calls| && s.calls[c].slot == s.worker.i ==> !AtWork(s, c))
            && (a.DoFree? ==> s.status[s.watcher.i] == Done)
  {
    RunInv(run, acts, k);
    RunStep(run, acts, k);
    StoresExchange(run[k], acts[k]);
    if acts[k].DoFinishRead? {
      WorkerAlone(run[k]);
    }
    hide AtWork, ProgramOf, IsRun, StageInv, MemInv, RegionInv, ReaderInv, WakeInv;
  }

  lemma StatusKept(s: State, a: Action)
    requires Shape(s) && Enabled(s, a)
    requires !a.DoClaim? && !a.DoPublish? && !a.DoAbort? && !a.DoScan? && !a.DoFinishRead? && !a.DoFree?
    ensures Step(s, a).status == s.status
  {
    hide Start, Register, DropStale, WriteNext, TryCreate, Fill, InsertHandle, Signal, Wake, Read, Respond,
      LeaveHandler, DropRequestHandle, Resolve, Vanish, ProgramOf;
  }

  lemma ClaimMovesStatus(s: State, c: nat, i: nat)
    requires StageInv(s) && CanClaim(s, c) && i < s.g.numSlots
    ensures var t := Claim(s, c);
            t.status[i] == s.status[i]
              || (Edge(s.status[i], t.status[i]) && MovedBy(s, DoClaim(c), i, s.status[i], t.status[i]))
  {
    ClaimEffect(s, c);
    hide StageInv, Claim;
  }

  lemma WriterMovesStatus(s: State, a: Action, i: nat)
    requires StageInv(s) && Enabled(s, a) && i < s.g.numSlots && (a.DoPublish? || a.DoAbort?)
    ensures var t := Step(s, a);
            t.status[i] == s.status[i] || (Edge(s.status[i], t.status[i]) && MovedBy(s, a, i, s.status[i], t.status[i]))
  {
    StoresExchange(s, a);
    hide StageInv, ProgramOf, WithPhase;
  }

  lemma ScanMovesStatus(s: State, dir: Dir, i: nat)
    requires Shape(s) && CanScan(s, dir) && i < s.g.numSlots
    ensures var t := Scan(s, dir);
            t.status[i] == s.status[i]
              || (Edge(s.status[i], t.status[i]) && MovedBy(s, DoScan(dir), i, s.status[i], t.status[i]))
  {
    hide SetStage;
  }

  lemma FinishMovesStatus(s: State, i: nat)
    requires StageInv(s) && CanFinishRead(s) && i < s.g.numSlots
    ensures var t := FinishRead(s);
            t.status[i] == s.status[i]
              || (Edge(s.status[i], t.status[i]) && MovedBy(s, DoFinishRead, i, s.status[i], t.status[i]))
  {
    FinishReadEffect(s);
    hide StageInv, FinishRead;
  }

  lemma FreeMovesStatus(s: State, i: nat)
    requires StageInv(s) && CanFree(s) && i < s.g.numSlots
    ensures var t := FreeSlot(s);
            t.status[i] == s.status[i]
              || (Edge(s.status[i], t.status[i]) && MovedBy(s, DoFree, i, s.status[i], t.status[i]))
  {
    FreeEffect(s);
    hide StageInv, FreeSlot;
  }

  lemma ReaderMovesStatus(s: State, a: Action, i: nat)
    requires StageInv(s) && Enabled(s, a) && i < s.g.numSlots && (a.DoScan? || a.DoFinishRead? || a.DoFree?)
    ensures var t := Step(s, a);
            t.status[i] == s.status[i] || (Edge(s.status[i], t.status[i]) && MovedBy(s, a, i, s.status[i], t.status[i]))
  {
    match a {
      case DoScan(dir) => ScanMovesStatus(s, dir, i);
      case DoFinishRead => FinishMovesStatus(s, i);
      case DoFree => FreeMovesStatus(s, i);
    }
    hide StageInv, Scan, FinishRead, FreeSlot, Edge, MovedBy;
  }

  /** In every step of every run each status word stays put or moves along an edge, and the mover is
      the thread that owns the slot for that edge. */
  lemma StatusWalk(run: seq<State>, acts: seq<Action>, k: nat, i: nat)
    requires IsRun(run, acts) && k < |acts| && i < run[k].g.numSlots
    ensures Shape(run[k]) && Shape(run[k + 1]) && run[k + 1].g == run[k].g
    ensures var x, y := run[k].status[i], run[k + 1].status[i];
            x == y || (Edge(x, y) && MovedBy(run[k], acts[k], i, x, y))
  {
    RunInv(run, acts, k);
    RunStep(run, acts, k);
    var s, a := run[k], acts[k];
    hide IsRun, StageInv, Edge, MovedBy, Claim;
    if a.DoClaim? {
      ClaimMovesStatus(s, a.c, i);
      hide Publish, Abort, Scan, FinishRead, FreeSlot;
    } else if a.DoPublish? || a.DoAbort? {
      hide Step, Enabled;
      WriterMovesStatus(s, a, i);
    } else if a.DoScan? || a.DoFinishRead? || a.DoFree? {
      hide Step, Enabled;
      ReaderMovesStatus(s, a, i);
    } else {
      hide Step, Enabled;
      StatusKept(s, a);
    }
  }

  lemma HoldersApart(s: State, c: nat, d: nat)
    requires StageInv(s) && c < |s.calls| && d < |s.calls| && c != d
    requires Preparing(s.calls[c].req.phase) && Preparing(s.calls[d].req.phase)
    ensures s.calls[c].slot != s.calls[d].slot
  {
    assert CallFits(s, c) && CallFits(s, d);
  }

  /** Two dispatch calls never hold the same slot at once. */
  lemma ClaimsExclusive(run: seq<State>, acts: seq<Action>, k: nat, c: nat, d: nat)
    requires IsRun(run, acts) && k < |run| && c < |run[k].calls| && d < |run[k].calls| && c != d
    requires Preparing(run[k].calls[c].req.phase) && Preparing(run[k].calls[d].req.phase)
    ensures run[k].calls[c].slot != run[k].calls[d].slot
  {
    RunInv(run, acts, k);
    hide IsRun;
    HoldersApart(run[k], c, d);
  }

  // ---- claim_free_slot ----------------------------------------------------------------------------

  /** At some moment of its own search, before state `k`, call `c` tried slot `i` and found it taken. */
  ghost predicate FoundTaken(run: seq<State>, k: nat, c: nat, i: nat)
    requires k < |run|
  {
    exists j {:trigger run[j]} :: 0 <= j < k && TriedInVain(run[j], c, i)
  }

  predicate TriedInVain(s: State, c: nat, i: nat) {
    c < |s.calls| && s.calls[c].req.phase == Looking(i) && i < |s.status| && s.status[i] != Free
  }

  lemma ClaimTry(s: State, c: nat)
    requires Shape(s) && CanClaim(s, c)
    ensures var t, j := Claim(s, c), s.calls[c].req.phase.next;
            if j >= s.g.numSlots then t.calls[c].req.phase == Refused
            else if s.status[j] == Free then t.calls[c].req.phase == Dropping && t.calls[c].slot == j && t.status[j]
              == Writing
            else t.calls[c].req.phase == Looking(j + 1) && TriedInVain(s, c, j)
  {
  }

  lemma RunLooks(run: seq<State>, acts: seq<Action>, k: nat, c: nat)
    requires IsRun(run, acts) && k < |acts| && c < |run[k + 1].calls| && run[k + 1].calls[c].req.phase.Looking?
    ensures Shape(run[k]) && run[k + 1].g == run[k].g
    ensures c == |run[k].calls| ==> run[k + 1].calls[c].req.phase == Looking(0)
    ensures c != |run[k].calls| ==> c < |run[k].calls|
    ensures c < |run[k].calls| ==>
              || run[k + 1].calls[c].req.phase == run[k].calls[c].req.phase
              || (CanClaim(run[k], c) && run[k].calls[c].req.phase.next < run[k].g.numSlots
                  && run[k + 1].calls[c].req.phase.next == run[k].calls[c].req.phase.next + 1
                  && TriedInVain(run[k], c, run[k].calls[c].req.phase.next))
  {
    RunInv(run, acts, k);
    RunStep(run, acts, k);
    NewCall(run[k], acts[k]);
    hide IsRun, TriedInVain;
    if c < |run[k].calls| {
      StepEvolves(run[k], acts[k], c);
      hide Inv, Evolves, AnswersNow;
      if acts[k] == DoClaim(c) {
        ClaimTry(run[k], c);
        hide Claim;
      } else {
        hide Step, Enabled;
      }
    }
  }

  lemma FoundTakenLater(run: seq<State>, k: nat, c: nat, i: nat)
    requires k + 1 < |run| && (FoundTaken(run, k, c, i) || TriedInVain(run[k], c, i))
    ensures FoundTaken(run, k + 1, c, i)
  {
  }

  /** Whatever slots a search has passed, it has itself found taken. */
  lemma {:induction false} PassedWereTaken(run: seq<State>, acts: seq<Action>, k: nat, c: nat)
    requires IsRun(run, acts) && k < |run| && c < |run[k].calls| && run[k].calls[c].req.phase.Looking?
    ensures run[k].calls[c].req.phase.next <= run[k].g.numSlots
    ensures forall i: nat :: i < run[k].calls[c].req.phase.next ==> FoundTaken(run, k, c, i)
  {
    assert |run| == |acts| + 1;
    if k == 0 {
      assert false;
    } else {
      var j, next := k - 1, run[k].calls[c].req.phase.next;
      RunLooks(run, acts, j, c);
      if c < |run[j].calls| {
        PassedWereTaken(run, acts, j, c);
      }
      hide IsRun, FoundTaken, TriedInVain, CanClaim;
      forall i: nat | i < next ensures FoundTaken(run, k, c, i) {
        FoundTakenLater(run, j, c, i);
      }
    }
  }

  /** `claim_free_slot` gives up only if every slot was taken at a moment within the call, and the slot
      it takes was Free when taken and the first that the call had not found taken. */
  lemma ClaimOutcome(run: seq<State>, acts: seq<Action>, k: nat)
    requires IsRun(run, acts) && k < |acts| && acts[k].DoClaim?
    ensures Shape(run[k]) && acts[k].c < |run[k + 1].calls|
    ensures var c, t := acts[k].c, run[k + 1];
            && (t.calls[c].req.phase == Refused ==> forall i: nat :: i < run[k].g.numSlots ==> FoundTaken(run, k, c, i))
            && (t.calls[c].req.phase == Dropping ==>
                  && t.calls[c].slot < run[k].g.numSlots
                  && run[k].status[t.calls[c].slot] == Free
                  && (forall i: nat :: i < t.calls[c].slot ==> FoundTaken(run, k, c, i)))
            && (t.calls[c].req.phase == Refused || t.calls[c].req.phase == Dropping || t.calls[c].req.phase.Looking?)
  {
    var c := acts[k].c;
    RunStep(run, acts, k);
    assert CanClaim(run[k], c) && run[k + 1] == Claim(run[k], c);
    PassedWereTaken(run, acts, k, c);
    hide IsRun, FoundTaken, TriedInVain;
    ClaimTry(run[k], c);
  }

  // ---- Wake-ups -----------------------------------------------------------------------------------

  /** A Ready slot is still to be announced by its dispatch, or announced by the event, or about to be
      visited by the scan under way. A Done slot likewise, or the watcher is at work on it. */
  lemma NoLostWakeup(run: seq<State>, acts: seq<Action>, k: nat, i: nat)
    requires IsRun(run, acts) && k < |run| && i < run[k].g.numSlots
    ensures Shape(run[k])
    ensures var s := run[k];
            && (s.status[i] == Ready ==>
              || (s.occ[i] < |s.calls| && s.PhaseOf(Req, s.occ[i]) in {Inserting, Registering, Signalling})
              || s.reqEvent > 0 || WillVisit(s.worker, i))
            && (s.status[i] == Done ==>
              || (s.occ[i] < |s.calls| && s.PhaseOf(Rsp, s.occ[i]) in {Inserting, Signalling})
              || s.rspEvent > 0 || WillVisit(s.watcher, i) || (Reading(s.watcher) && s.watcher.i == i))
  {
    var s := run[k];
    RunInv(run, acts, k);
    assert SlotAwake(s, i) && SlotFits(s, i);
    if s.status[i] != Free {
      assert CallFits(s, s.occ[i]);
    }
    hide IsRun, MemInv, RegionInv, ReaderInv;
  }

  lemma AllQuiet(s: State, i: nat)
    requires StageInv(s) && WakeInv(s) && i < s.g.numSlots
    requires s.worker == Waiting && s.watcher == Waiting && s.reqEvent == 0 && s.rspEvent == 0
    requires forall c :: 0 <= c < |s.calls| ==>
               Ended(s.calls[c].req.phase) && (Ended(s.calls[c].rsp.phase) || s.calls[c].rsp.phase == Idle)
    ensures s.status[i] == Free
  {
    var c := s.occ[i];
    assert c < |s.calls| ==> CallFits(s, c) && ReaderOfCall(s, c);
    assert SlotAwake(s, i) && SlotFits(s, i);
  }

  /** With both readers blocked on clear events and no dispatch or handler still running, every slot
      is Free: nothing is ever left behind waiting for a timeout. */
  lemma Quiescence(run: seq<State>, acts: seq<Action>, k: nat, i: nat)
    requires IsRun(run, acts) && k < |run| && i < run[k].g.numSlots
    requires run[k].worker == Waiting && run[k].watcher == Waiting && run[k].reqEvent == 0 && run[k].rspEvent == 0
    requires forall c :: 0 <= c < |run[k].calls| ==>
               && Ended(run[k].calls[c].req.phase)
               && (Ended(run[k].calls[c].rsp.phase) || run[k].calls[c].rsp.phase == Idle)
    ensures Shape(run[k]) && run[k].status[i] == Free
  {
    RunInv(run, acts, k);
    hide IsRun;
    AllQuiet(run[k], i);
  }

  // ---- Draining -----------------------------------------------------------------------------------

  function Weight(st: Status): nat {
    match st
    case Ready => 3
    case Claimed => 2
    case Done => 1
    case _ => 0
  }

  function TotalWeight(status: seq<Status>): nat {
    if status == [] then 0 else Weight(status[0]) + TotalWeight(status[1..])
  }

  lemma {:induction false} WeightUpdate(status: seq<Status>, i: nat, st: Status)
    requires i < |status|
    ensures TotalWeight(status[i := st]) == TotalWeight(status) - Weight(status[i]) + Weight(st)
  {
    if i == 0 {
      assert status[0 := st][1..] == status[1..];
    } else {
      WeightUpdate(status[1..], i - 1, st);
      assert status[i := st][1..] == status[1..][i - 1 := st];
    }
  }

  lemma {:induction false} WeightBound(status: seq<Status>)
    ensures TotalWeight(status) <= 3 * |status|
  {
    if status != [] {
      WeightBound(status[1..]);
    }
  }

  /** No dispatch call is running. */
  ghost predicate NoDispatch(s: State) {
    forall c :: 0 <= c < |s.calls| ==> Ended(s.calls[c].req.phase)
  }

  predicate LowersAt(x: seq<Status>, y: seq<Status>, i: nat) {
    i < |x| == |y| && y == x[i := y[i]] && Edge(x[i], y[i]) && x[i] != Free && x[i] != Writing
  }

  lemma WriterStatusAt(s: State, a: Action)
    requires StageInv(s) && Enabled(s, a) && NoDispatch(s) && (a.DoPublish? || a.DoAbort?)
    ensures LowersAt(s.status, Step(s, a).status, s.calls[a.c].slot)
  {
    StoresExchange(s, a);
    hide StageInv, ProgramOf, WithPhase;
  }

  lemma ScanStatusAt(s: State, dir: Dir)
    requires Shape(s) && CanScan(s, dir)
    ensures Scan(s, dir).status == s.status || LowersAt(s.status, Scan(s, dir).status, ReaderOf(s, dir).i)
  {
    hide SetStage;
  }

  lemma FinishStatusAt(s: State)
    requires StageInv(s) && CanFinishRead(s)
    ensures FinishRead(s).status == s.status || LowersAt(s.status, FinishRead(s).status, s.worker.i)
  {
    FinishReadEffect(s);
    hide StageInv, FinishRead;
  }

  lemma FreeStatusAt(s: State)
    requires StageInv(s) && CanFree(s)
    ensures LowersAt(s.status, FreeSlot(s).status, s.watcher.i)
  {
    FreeEffect(s);
    hide StageInv, FreeSlot;
  }

  lemma OneStatusMoves(s: State, a: Action) returns (i: nat)
    requires StageInv(s) && Enabled(s, a) && NoDispatch(s) && !a.DoStart?
    ensures Step(s, a).status == s.status || LowersAt(s.status, Step(s, a).status, i)
  {
    i := 0;
    assert !a.DoClaim?;
    if a.DoPublish? || a.DoAbort? {
      WriterStatusAt(s, a);
      i := s.calls[a.c].slot;
    } else if a.DoScan? {
      ScanStatusAt(s, a.dir);
      i := ReaderOf(s, a.dir).i;
    } else if a.DoFinishRead? {
      FinishStatusAt(s);
      i := s.worker.i;
    } else if a.DoFree? {
      FreeStatusAt(s);
      i := s.watcher.i;
    } else {
      StatusKept(s, a);
    }
    hide StageInv, LowersAt, Scan, FinishRead, FreeSlot, Publish, Abort;
  }

  lemma LowersWeight(x: seq<Status>, y: seq<Status>, i: nat)
    requires LowersAt(x, y, i)
    ensures TotalWeight(y) < TotalWeight(x)
  {
    WeightUpdate(x, i, y[i]);
  }

  /** Without running dispatches, a step that changes any status strictly lowers the total weight. */
  lemma DrainStep(s: State, a: Action)
    requires StageInv(s) && Enabled(s, a) && NoDispatch(s) && !a.DoStart?
    ensures var t := Step(s, a);
            if t.status == s.status then TotalWeight(t.status) == TotalWeight(s.status)
                 else TotalWeight(t.status) < TotalWeight(s.status)
  {
    var i := OneStatusMoves(s, a);
    hide Step, StageInv, Enabled, NoDispatch, LowersAt, TotalWeight;
    if Step(s, a).status != s.status {
      LowersWeight(s.status, Step(s, a).status, i);
    }
  }

  ghost function StatusChanges(run: seq<State>, j: nat, k: nat): nat
    requires j <= k < |run|
  {
    if j == k then 0 else StatusChanges(run, j, k - 1) + (if run[k].status == run[k - 1].status then 0 else 1)
  }

  lemma DrainAt(run: seq<State>, acts: seq<Action>, k: nat)
    requires IsRun(run, acts) && k < |acts| && NoDispatch(run[k]) && !acts[k].DoStart?
    ensures TotalWeight(run[k + 1].status) + (if run[k + 1].status == run[k].status then 0
                                              else 1) <= TotalWeight(run[k].status)
  {
    RunInv(run, acts, k);
    RunStep(run, acts, k);
    hide IsRun, Step, Enabled, StageInv, TotalWeight, NoDispatch;
    DrainStep(run[k], acts[k]);
  }

  /** Once dispatching has stopped, at most three status changes per slot remain in any run. */
  lemma {:induction false} Drains(run: seq<State>, acts: seq<Action>, j: nat, k: nat)
    requires IsRun(run, acts) && j <= k < |run|
    requires forall m {:trigger acts[m]} {:trigger NoDispatch(run[m])} :: j <= m < k ==>
               NoDispatch(run[m]) && !acts[m].DoStart?
    ensures Shape(run[j])
    ensures StatusChanges(run, j, k) + TotalWeight(run[k].status) <= TotalWeight(run[j].status) <= 3 * run[j].g.numSlots
    decreases k
  {
    assert |run| == |acts| + 1;
    RunInv(run, acts, j);
    WeightBound(run[j].status);
    hide IsRun, StageInv, TotalWeight, NoDispatch;
    if j < k {
      Drains(run, acts, j, k - 1);
      assert !acts[k - 1].DoStart?;
      DrainAt(run, acts, k - 1);
    }
  }
}
