/** The whole-system invariant, and its hold on every state of every run. */
module Runs {
  import opened Bytes
  import opened Layout
  import opened Protocol
  import opened Stages
  import opened Memory
  import opened Regions
  import opened Readers
  import opened Pending
  import opened Wakeups
  import opened SyncHandlers

  ghost predicate Inv(s: State) {
    StageInv(s) && MemInv(s) && RegionInv(s) && ReaderInv(s) && PendingInv(s) && WakeInv(s) && SyncInv(s)
  }

  lemma InitInv(s: State)
    requires Init(s)
    ensures Inv(s)
  {
    forall i | 0 <= i < s.g.numSlots ensures SlotFits(s, i) && SlotAwake(s, i) {
    }
  }

  lemma InvStep(s: State, a: Action)
    requires Inv(s) && Enabled(s, a)
    ensures Inv(Step(s, a))
  {
    StageStep(s, a);
    MemStep(s, a);
    RegionsStep(s, a);
    ReadersStep(s, a);
    PendingStep(s, a);
    WakeupsStep(s, a);
    SyncStep(s, a);
    hide *;
  }

  lemma RunStep(run: seq<State>, acts: seq<Action>, k: nat)
    requires IsRun(run, acts) && k < |acts|
    ensures Shape(run[k]) && Enabled(run[k], acts[k]) && run[k + 1] == Step(run[k], acts[k])
  {
    var a := acts[k];
    hide Step, Enabled, Init;
    assert Shape(run[k]) && Enabled(run[k], a);
  }

  lemma {:induction false} RunInv(run: seq<State>, acts: seq<Action>, k: nat)
    requires IsRun(run, acts) && k < |run|
    ensures Inv(run[k])
  {
    hide Inv, Step, Enabled, Init;
    if k == 0 {
      InitInv(run[0]);
    } else {
      RunInv(run, acts, k - 1);
      RunStep(run, acts, k - 1);
      InvStep(run[k - 1], acts[k - 1]);
    }
  }

  /** Some run that starts in `o` ends in `s`. */
  ghost predicate Reaches(o: State, s: State) {
    exists run, acts :: IsRun(run, acts) && run[0] == o && run[|acts|] == s
  }

  /** A bus just laid out over `mem`, with no names taken. */
  function Boot(g: Geometry, mem: seq<byte>, semaphore: bool, sync: bool): State {
    State(semaphore, sync, g, mem, seq(g.numSlots, _ => Free), seq(g.numSlots, _ => 0), [], Waiting, Waiting, 0, 0,
          map[], map[], [], map[], {})
  }

  /** Every sound geometry has a bus to run. */
  lemma BootStarts(g: Geometry, mem: seq<byte>, semaphore: bool, sync: bool)
    requires Sound(g) && |mem| == MappedSize(g)
    ensures var o := Boot(g, mem, semaphore, sync); Init(o) && Reaches(o, o)
  {
    ReachInit(Boot(g, mem, semaphore, sync));
  }

  lemma ReachInit(o: State)
    requires Init(o)
    ensures Reaches(o, o)
  {
    assert IsRun([o], []);
  }

  lemma Extend(run: seq<State>, acts: seq<Action>, a: Action)
    requires IsRun(run, acts) && Shape(run[|acts|]) && Enabled(run[|acts|], a)
    ensures IsRun(run + [Step(run[|acts|], a)], acts + [a])
  {
    var run', acts' := run + [Step(run[|acts|], a)], acts + [a];
    hide Step, Enabled, Init;
    forall k | 0 <= k < |acts'|
      ensures Shape(run'[k]) && Enabled(run'[k], acts'[k]) && run'[k + 1] == Step(run'[k], acts'[k])
    {
      if k < |acts| {
        RunStep(run, acts, k);
      }
    }
  }

  lemma ReachStep(o: State, s: State, a: Action)
    requires Reaches(o, s) && Shape(s) && Enabled(s, a)
    ensures Reaches(o, Step(s, a))
  {
    var run, acts :| IsRun(run, acts) && run[0] == o && run[|acts|] == s;
    Extend(run, acts, a);
    var run', acts' := run + [Step(s, a)], acts + [a];
    hide IsRun, Step, Enabled;
    assert IsRun(run', acts') && run'[0] == o && run'[|acts'|] == Step(s, a);
  }

  lemma ReachInv(o: State, s: State)
    requires Reaches(o, s)
    ensures Inv(s)
  {
    var run, acts :| IsRun(run, acts) && run[0] == o && run[|acts|] == s;
    RunInv(run, acts, |acts|);
    hide Inv;
  }
}
