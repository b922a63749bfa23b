/** The walk of `create_overflow_fresh` over the generations while other threads come and go: which
    generation a writer ends up with, and when it gives up. */
module Walks {
  import opened Bytes
  import opened Layout
  import opened Slots
  import opened Protocol
  import opened Stages
  import opened Memory
  import opened Regions
  import opened Readers
  import opened Pending
  import opened Wakeups
  import opened SyncHandlers
  import opened Runs
  import opened Handles

  /** The writer is about to try this generation, and its name is taken. */
  predicate TriesTaken(s: State, dir: Dir, c: nat, gen: nat) {
    c < |s.calls| && s.PhaseOf(dir, c) == Creating(gen) && Name(dir, s.calls[c].slot, gen) in s.names
  }

  /** At some moment before state `k`, the writer tried this generation and found the name taken. */
  ghost predicate FoundNamed(run: seq<State>, k: nat, dir: Dir, c: nat, i: nat, gen: nat)
    requires k < |run|
  {
    exists j {:trigger run[j]} :: 0 <= j < k && TriesTaken(run[j], dir, c, gen) && run[j].calls[c].slot == i
  }

  lemma FoundNamedLater(run: seq<State>, k: nat, dir: Dir, c: nat, i: nat, gen: nat)
    requires k + 1 < |run|
    requires FoundNamed(run, k, dir, c, i, gen) || (TriesTaken(run[k], dir, c, gen) && run[k].calls[c].slot == i)
    ensures FoundNamed(run, k + 1, dir, c, i, gen)
  {
  }

  /** One attempt: it creates the region exactly if nothing fails and the name is free; a name that is taken
      sends it on to the next generation, the last one to its end. */
  lemma Attempt(s: State, dir: Dir, c: nat, fault: bool)
    requires CanTryCreate(s, dir, c)
    ensures var t, gen := TryCreate(s, dir, c, fault), s.PhaseOf(dir, c).gen;
            && t.calls[c].slot == s.calls[c].slot
            && t.PhaseOf(dir, c) == (if fault then Aborting
                                     else if !TriesTaken(s, dir, c, gen) then Filling
                                     else if gen < 254 then Creating(gen + 1) else Aborting)
            && (t.PhaseOf(dir, c) == Filling ==>
                  && WriterOf(t.calls[c], dir).marker == gen + 1
                  && WriterOf(t.calls[c], dir).region == Some(|s.regions|)
                  && t.names == s.names[Name(dir, s.calls[c].slot, gen) := |s.regions|]
                  && t.held == s.held + {|s.regions|})
            && (t.PhaseOf(dir, c) != Filling ==> t.names == s.names && t.regions == s.regions && t.held == s.held)
  {
  }

  lemma CreatingStep(s: State, a: Action, t: State, dir: Dir, c: nat)
    requires Shape(s) && Enabled(s, a) && t == Step(s, a) && CallsStep(s, a, t)
    requires c < |t.calls| && t.PhaseOf(dir, c).Creating? && t.PhaseOf(dir, c).gen > 0
    ensures c < |s.calls| && t.calls[c].slot == s.calls[c].slot
    ensures var gen := t.PhaseOf(dir, c).gen;
            s.PhaseOf(dir, c) == Creating(gen) || (gen <= 254 && TriesTaken(s, dir, c, gen - 1))
  {
    assert c >= |s.calls| ==> NewCall(t.calls[c]);
    if c < |s.calls| {
      assert CallStep(a, c, s.calls[c], t.calls[c]);
      hide CallsStep;
      if a.DoTryCreate? && a.dir == dir && a.c == c {
        Attempt(s, dir, c, a.fault);
        hide TryCreate;
      } else {
        hide Step, Enabled;
      }
    }
  }

  lemma RunCreating(run: seq<State>, acts: seq<Action>, k: nat, dir: Dir, c: nat)
    requires IsRun(run, acts) && k < |acts| && c < |run[k + 1].calls| && run[k + 1].PhaseOf(dir, c).Creating?
    requires run[k + 1].PhaseOf(dir, c).gen > 0
    ensures c < |run[k].calls| && run[k + 1].calls[c].slot == run[k].calls[c].slot
    ensures var gen := run[k + 1].PhaseOf(dir, c).gen;
            run[k].PhaseOf(dir, c) == Creating(gen) || (gen <= 254 && TriesTaken(run[k], dir, c, gen - 1))
  {
    RunInv(run, acts, k);
    RunStep(run, acts, k);
    hide IsRun, StageInv, MemInv, RegionInv, ReaderInv, PendingInv, WakeInv, SyncInv, Step, Enabled, CallsStep,
      TriesTaken;
    StepOnward(run[k], acts[k]);
    CreatingStep(run[k], acts[k], run[k + 1], dir, c);
  }

  /** Whatever generations a writer has passed, it has itself found taken. */
  lemma {:induction false} PassedWereNamed(run: seq<State>, acts: seq<Action>, k: nat, dir: Dir, c: nat)
    requires IsRun(run, acts) && k < |run| && c < |run[k].calls| && run[k].PhaseOf(dir, c).Creating?
    ensures run[k].PhaseOf(dir, c).gen <= 254
    ensures forall gen: nat :: gen < run[k].PhaseOf(dir, c).gen ==>
              FoundNamed(run, k, dir, c, run[k].calls[c].slot, gen)
  {
    if k > 0 && run[k].PhaseOf(dir, c).gen > 0 {
      assert |run| == |acts| + 1;
      var j := k - 1;
      RunCreating(run, acts, j, dir, c);
      PassedWereNamed(run, acts, j, dir, c);
      hide IsRun, FoundNamed, TriesTaken;
      forall gen: nat | gen < run[k].PhaseOf(dir, c).gen
        ensures FoundNamed(run, k, dir, c, run[k].calls[c].slot, gen)
      {
        FoundNamedLater(run, j, dir, c, run[k].calls[c].slot, gen);
      }
    }
  }

  /** However other threads race it, a writer's region gets the first generation that the writer did not
      find taken, under that generation's marker; and without a system error it gives up only after having
      found all 255 names taken, each at a moment within the call. */
  lemma WalkOutcome(run: seq<State>, acts: seq<Action>, k: nat)
    requires IsRun(run, acts) && k < |acts| && acts[k].DoTryCreate?
    ensures var dir, c, t := acts[k].dir, acts[k].c, run[k + 1];
            && c < |run[k].calls| && c < |t.calls|
            && var i := run[k].calls[c].slot;
               && (t.PhaseOf(dir, c) == Filling ==>
                     var gen := WriterOf(t.calls[c], dir).marker - 1;
                     && 0 <= gen <= 254 && Name(dir, i, gen) !in run[k].names && Name(dir, i, gen) in t.names
                     && (forall earlier: nat :: earlier < gen ==> FoundNamed(run, k, dir, c, i, earlier)))
               && (t.PhaseOf(dir, c) == Aborting && !acts[k].fault ==>
                     && TriesTaken(run[k], dir, c, 254)
                     && (forall gen: nat :: gen < 254 ==> FoundNamed(run, k, dir, c, i, gen)))
               && (t.PhaseOf(dir, c) == Filling || t.PhaseOf(dir, c) == Aborting || t.PhaseOf(dir, c).Creating?)
  {
    var dir, c, s := acts[k].dir, acts[k].c, run[k];
    RunStep(run, acts, k);
    assert CanTryCreate(s, dir, c) && run[k + 1] == TryCreate(s, dir, c, acts[k].fault);
    PassedWereNamed(run, acts, k, dir, c);
    Attempt(s, dir, c, acts[k].fault);
    hide FoundNamed, TryCreate, Step, Enabled, IsRun;
  }
}
