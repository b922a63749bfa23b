/** The retired bump allocator (`alloc_heap`, `reset_heap`, `try_reset_heap`) that the per-slot arenas
    replaced, as threads racing on `alloc_head`. */
module Bump {
  import opened Layout

  /** A block handed out since the last reset, and the size its caller asked for. */
  datatype Block = Block(off: nat, size: nat)

  function BlockEnd(b: Block): nat {
    b.off + Align8(b.size)
  }

  datatype Thread =
    | Idle
    | Loading(size: nat)               // alloc_heap is about to load the head
    | Swapping(size: nat, head: nat)   // about to compare and swap
    | Checking(i: nat)                 // try_reset_heap is about to look at slot i
    | Resetting                        // found every slot Free, about to store 0

  datatype State = State(heapSize: nat, busy: seq<bool>, head: nat, threads: seq<Thread>, blocks: seq<Block>)

  datatype Action =
    | Alloc(t: nat, size: nat)
    | Load(t: nat)
    | Swap(t: nat)
    | TryReset(t: nat)
    | Check(t: nat)
    | Reset(t: nat)
    | Turn(i: nat, busy: bool)         // slot i becomes taken or Free

  predicate Enabled(s: State, a: Action) {
    match a
    case Turn(i, _) => i < |s.busy|
    case Alloc(t, _) => t < |s.threads| && s.threads[t].Idle?
    case TryReset(t) => t < |s.threads| && s.threads[t].Idle?
    case Load(t) => t < |s.threads| && s.threads[t].Loading?
    case Swap(t) => t < |s.threads| && s.threads[t].Swapping?
    case Check(t) => t < |s.threads| && s.threads[t].Checking?
    case Reset(t) => t < |s.threads| && s.threads[t].Resetting?
  }

  function Go(s: State, t: nat, thread: Thread): State
    requires t < |s.threads|
  {
    s.(threads := s.threads[t := thread])
  }

  function Step(s: State, a: Action): (u: State)
    requires Enabled(s, a)
    ensures u.heapSize == s.heapSize && |u.threads| == |s.threads| && |u.busy| == |s.busy|
  {
    match a
    case Turn(i, busy) => s.(busy := s.busy[i := busy])
    case Alloc(t, size) => Go(s, t, Loading(size))
    case TryReset(t) => Go(s, t, Checking(0))
    case Load(t) =>
      var size := s.threads[t].size;
      if s.head + Align8(size) > s.heapSize then Go(s, t, Idle)   // heap full
      else Go(s, t, Swapping(size, s.head))
    case Swap(t) =>
      var Swapping(size, head) := s.threads[t];
      if s.head == head
      then Go(s, t, Idle).(head := head + Align8(size), blocks := s.blocks + [Block(head, size)])
      else Go(s, t, Loading(size))
    case Check(t) =>
      var i := s.threads[t].i;
      Go(s, t, if i >= |s.busy| then Resetting else if s.busy[i] then Idle else Checking(i + 1))
    case Reset(t) => Go(s, t, Idle).(head := 0, blocks := [])
  }

  predicate Init(s: State) {
    s.head == 0 && s.blocks == [] && forall t :: 0 <= t < |s.threads| ==> s.threads[t] == Idle
  }

  ghost predicate IsRun(run: seq<State>, acts: seq<Action>) {
    && |run| == |acts| + 1
    && Init(run[0])
    && forall k {:trigger acts[k]} :: 0 <= k < |acts| ==>
      Enabled(run[k], acts[k]) && run[k + 1] == Step(run[k], acts[k])
  }

  // ---- Between resets -----------------------------------------------------------------------------------

  /** The blocks lie end to end from 0 up to `top`. */
  ghost predicate Tile(blocks: seq<Block>, top: nat) {
    if blocks == [] then top == 0
    else
      var last := blocks[|blocks| - 1];
      BlockEnd(last) == top && last.off % 8 == 0 && Tile(blocks[..|blocks| - 1], last.off)
  }

  predicate ThreadOk(s: State, thread: Thread) {
    thread.Swapping? ==> thread.head + Align8(thread.size) <= s.heapSize && thread.head % 8 == 0
  }

  ghost predicate Inv(s: State) {
    && s.head <= s.heapSize && s.head % 8 == 0
    && Tile(s.blocks, s.head)
    && forall t :: 0 <= t < |s.threads| ==> ThreadOk(s, s.threads[t])
  }

  lemma InvStep(s: State, a: Action)
    requires Inv(s) && Enabled(s, a)
    ensures Inv(Step(s, a))
  {
    var u := Step(s, a);
    if a.Swap? && u.blocks != s.blocks {
      assert u.blocks[..|u.blocks| - 1] == s.blocks;
    }
    assert a.Alloc? || a.Load? || a.Swap? || a.TryReset? || a.Check? || a.Reset? ==>
        forall t :: 0 <= t < |s.threads| && t != a.t ==> u.threads[t] == s.threads[t];
  }

  lemma {:induction false} RunInv(run: seq<State>, acts: seq<Action>, k: nat)
    requires IsRun(run, acts) && k < |run|
    ensures Inv(run[k])
  {
    if k > 0 {
      RunInv(run, acts, k - 1);
      var a := acts[k - 1];
      InvStep(run[k - 1], a);
      hide Inv, Step, Enabled;
      assert run[k] == Step(run[k - 1], acts[k - 1]);
    }
  }

  lemma {:induction false} TileOrdered(blocks: seq<Block>, top: nat, i: nat)
    requires Tile(blocks, top) && i < |blocks|
    ensures blocks[i].off % 8 == 0 && BlockEnd(blocks[i]) <= top
    ensures forall j: nat :: i < j < |blocks| ==> BlockEnd(blocks[i]) <= blocks[j].off
  {
    var n := |blocks| - 1;
    if i < n {
      TileOrdered(blocks[..n], blocks[n].off, i);
      forall j: nat | i < j < |blocks| ensures BlockEnd(blocks[i]) <= blocks[j].off {
        if j < n {
          assert blocks[..n][j] == blocks[j];
        }
      }
    }
  }

  /** Every block handed out since the last reset is 8-aligned and, with its full size, inside the heap,
      and no later one shares a byte with it. */
  lemma BlocksDisjoint(run: seq<State>, acts: seq<Action>, k: nat, i: nat)
    requires IsRun(run, acts) && k < |run| && i < |run[k].blocks|
    ensures run[k].blocks[i].off % 8 == 0
    ensures run[k].blocks[i].off + run[k].blocks[i].size <= run[k].heapSize
    ensures forall j: nat :: i < j < |run[k].blocks| ==>
              run[k].blocks[i].off + run[k].blocks[i].size <= run[k].blocks[j].off
  {
    RunInv(run, acts, k);
    TileOrdered(run[k].blocks, run[k].head, i);
  }

  /** Left alone, a call gets the block at the head if it fits the heap, and otherwise nothing. */
  lemma AllocAlone(s: State, t: nat, size: nat)
    requires Enabled(s, Alloc(t, size))
    ensures var loading := Step(s, Alloc(t, size));
            && Enabled(loading, Load(t))
            && var loaded := Step(loading, Load(t));
               if s.head + Align8(size) > s.heapSize then loaded == s
               else
                 && Enabled(loaded, Swap(t))
                 && Step(loaded, Swap(t))
                    == s.(head := s.head + Align8(size), blocks := s.blocks + [Block(s.head, size)])
  {
    assert s.threads[t := Idle] == s.threads;
  }

  /** At some moment before state `k`, thread `t` looked at slot `i` and found it Free. */
  ghost predicate FoundFree(run: seq<State>, k: nat, t: nat, i: nat)
    requires k < |run|
  {
    exists j {:trigger run[j]} :: 0 <= j < k && SeesFree(run[j], t, i)
  }

  predicate SeesFree(s: State, t: nat, i: nat) {
    t < |s.threads| && s.threads[t] == Checking(i) && i < |s.busy| && !s.busy[i]
  }

  lemma FoundFreeLater(run: seq<State>, k: nat, t: nat, i: nat)
    requires k + 1 < |run| && (FoundFree(run, k, t, i) || SeesFree(run[k], t, i))
    ensures FoundFree(run, k + 1, t, i)
  {
  }

  /** How many slots a reset check has got past. */
  function Passed(s: State, t: nat): nat
    requires t < |s.threads|
  {
    match s.threads[t]
    case Checking(i) => i
    case Resetting => |s.busy|
    case _ => 0
  }

  lemma PassStep(s: State, a: Action, t: nat)
    requires Enabled(s, a) && t < |s.threads| && Passed(s, t) <= |s.busy|
    ensures var u := Step(s, a);
            && Passed(u, t) <= |u.busy|
            && (Passed(u, t) <= Passed(s, t) || (Passed(u, t) == Passed(s, t) + 1 && SeesFree(s, t, Passed(s, t))))
  {
  }

  /** The head goes back to zero only after the resetting thread has itself found every slot Free, one
      after the other; not at one moment, although only then is it safe. */
  lemma {:induction false} ResetsSawFree(run: seq<State>, acts: seq<Action>, k: nat, t: nat)
    requires IsRun(run, acts) && k < |run| && t < |run[k].threads|
    ensures Passed(run[k], t) <= |run[k].busy|
    ensures forall i: nat :: i < Passed(run[k], t) ==> FoundFree(run, k, t, i)
    ensures k < |acts| && acts[k] == Reset(t) ==> forall i: nat :: i < |run[k].busy| ==> FoundFree(run, k, t, i)
  {
    if k > 0 {
      var j := k - 1;
      assert Enabled(run[j], acts[j]) && run[j + 1] == Step(run[j], acts[j]);
      ResetsSawFree(run, acts, j, t);
      PassStep(run[j], acts[j], t);
      hide Step, FoundFree, SeesFree;
      forall i: nat | i < Passed(run[k], t) ensures FoundFree(run, k, t, i) {
        FoundFreeLater(run, j, t, i);
      }
    }
    if k < |acts| {
      assert Enabled(run[k], acts[k]);
    }
  }

  // ---- Exhaustion ------------------------------------------------------------------------------------------

  /** Non-empty allocations that have succeeded up to state `k`. */
  ghost function Successes(run: seq<State>, acts: seq<Action>, k: nat): nat
    requires k <= |acts| < |run|
  {
    if k == 0 then 0
    else Successes(run, acts, k - 1) + (if Succeeds(run[k - 1], acts[k - 1]) then 1 else 0)
  }

  predicate Succeeds(s: State, a: Action) {
    a.Swap? && Enabled(s, a) && s.threads[a.t].head == s.head && s.threads[a.t].size > 0
  }

  /** No reset check has got past slot `i`. */
  ghost predicate Blocked(s: State, i: nat) {
    forall t :: 0 <= t < |s.threads| ==> !s.threads[t].Resetting? && (s.threads[t].Checking? ==> s.threads[t].i <= i)
  }

  lemma BlockedStep(s: State, a: Action, i: nat)
    requires Inv(s) && Enabled(s, a) && Blocked(s, i) && i < |s.busy|
    requires a.Check? ==> s.busy[i]
    ensures Blocked(Step(s, a), i) && !a.Reset?
    ensures Step(s, a).head >= s.head + if Succeeds(s, a) then 8 else 0
  {
    assert a.Swap? ==> ThreadOk(s, s.threads[a.t]);
  }

  /** Why it was retired: when some slot is taken at every look of every reset check, a run of any
      length has at most heap_size / 8 successful non-empty allocations. */
  lemma {:induction false} OverlapExhausts(run: seq<State>, acts: seq<Action>, k: nat, i: nat)
    requires IsRun(run, acts) && k <= |acts| && i < |run[0].busy|
    requires forall m {:trigger acts[m]} :: 0 <= m < k && acts[m].Check? ==> i < |run[m].busy| && run[m].busy[i]
    ensures Blocked(run[k], i) && |run[k].busy| == |run[0].busy| && run[k].heapSize == run[0].heapSize
    ensures 8 * Successes(run, acts, k) <= run[k].head
    ensures Successes(run, acts, k) <= run[0].heapSize / 8
  {
    RunInv(run, acts, k);
    if k > 0 {
      OverlapExhausts(run, acts, k - 1, i);
      var a := acts[k - 1];
      RunInv(run, acts, k - 1);
      BlockedStep(run[k - 1], a, i);
      hide Blocked, Step, Enabled, Succeeds;
    }
  }

  // ---- Retries ---------------------------------------------------------------------------------------------

  predicate Fails(s: State, a: Action, t: nat) {
    a == Swap(t) && Enabled(s, a) && s.threads[t].head != s.head
  }

  /** Failed compare-and-swaps of thread `t` between states `j` and `k`. */
  ghost function Failures(run: seq<State>, acts: seq<Action>, j: nat, k: nat, t: nat): nat
    requires j <= k <= |acts| < |run|
  {
    if j == k then 0
    else Failures(run, acts, j, k - 1, t) + (if Fails(run[k - 1], acts[k - 1], t) then 1 else 0)
  }

  /** The head as thread `t` knows it. */
  function Seen(s: State, t: nat): nat {
    if t < |s.threads| && s.threads[t].Swapping? then s.threads[t].head else s.head
  }

  lemma RetryStep(s: State, a: Action, t: nat)
    requires Inv(s) && Enabled(s, a) && !a.Reset? && Seen(s, t) <= s.head
    ensures var u := Step(s, a);
            Seen(u, t) <= u.head && Seen(u, t) >= Seen(s, t) + if Fails(s, a, t) then 8 else 0
  {
    if a.Swap? {
      assert ThreadOk(s, s.threads[a.t]);
    }
  }

  /** While nobody resets, a thread's compare-and-swap fails at most heap_size / 8 times, however many
      calls it makes and however the other threads race it. */
  lemma {:induction false} RetriesBounded(run: seq<State>, acts: seq<Action>, j: nat, k: nat, t: nat)
    requires IsRun(run, acts) && j <= k <= |acts|
    requires t < |run[j].threads| && !run[j].threads[t].Swapping?
    requires forall m {:trigger acts[m]} :: j <= m < k ==> !acts[m].Reset?
    ensures Seen(run[k], t) <= run[k].head && run[k].heapSize == run[j].heapSize
    ensures 8 * Failures(run, acts, j, k, t) <= Seen(run[k], t)
    ensures Failures(run, acts, j, k, t) <= run[j].heapSize / 8
    decreases k
  {
    RunInv(run, acts, k);
    if j < k {
      RetriesBounded(run, acts, j, k - 1, t);
      var a := acts[k - 1];
      RunInv(run, acts, k - 1);
      RetryStep(run[k - 1], a, t);
      hide Step, Enabled, Fails, Seen;
    }
  }
}
