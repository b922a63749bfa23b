/** The two events, counted exactly: what a wait finds is what has been signalled and not yet taken. */
module Events {
  import opened Layout
  import opened Protocol
  import opened Runs

  predicate Touches(a: Action, dir: Dir) {
    match a
    case DoSignal(d, _) => d == dir
    case DoWake(d, _) => d == dir
    case _ => false
  }

  predicate SameEvents(s: State, t: State) {
    t.reqEvent == s.reqEvent && t.rspEvent == s.rspEvent
  }

  lemma WriterKeepsEvents(s: State, a: Action)
    requires Shape(s) && Enabled(s, a)
    requires a.DoStart? || a.DoRegister? || a.DoDropStale? || a.DoFill? || a.DoPublish? || a.DoAbort?
    ensures SameEvents(s, Step(s, a))
  {
    hide ProgramOf, FreshId;
  }

  lemma ReaderKeepsEvents(s: State, a: Action)
    requires Shape(s) && Enabled(s, a) && (a.DoFinishRead? || a.DoFree?)
    ensures SameEvents(s, Step(s, a))
  {
    hide SetStage;
    match a
    case DoFinishRead => hide FreeSlot;
    case DoFree => hide FinishRead;
  }

  lemma QuietKeepsEvents(s: State, a: Action)
    requires Shape(s) && Enabled(s, a)
    requires a.DoRespond? || a.DoLeaveHandler? || a.DoDropRequestHandle? || a.DoVanish?
    ensures SameEvents(s, Step(s, a))
  {
  }

  lemma OtherKeepsEvents(s: State, a: Action)
    requires Shape(s) && Enabled(s, a)
    requires a.DoClaim? || a.DoWriteNext? || a.DoTryCreate? || a.DoInsertHandle? || a.DoScan? || a.DoRead?
               || a.DoResolve?
    ensures SameEvents(s, Step(s, a))
  {
    hide Claim, WriteNext, TryCreate, InsertHandle, Scan, Read, Resolve, ProgramOf;
  }

  /** Only signalling and waiting change an event. */
  lemma EventsKept(s: State, a: Action)
    requires Shape(s) && Enabled(s, a) && !a.DoSignal? && !a.DoWake?
    ensures SameEvents(s, Step(s, a))
  {
    hide Step, Enabled;
    if a.DoStart? || a.DoRegister? || a.DoDropStale? || a.DoFill? || a.DoPublish? || a.DoAbort? {
      WriterKeepsEvents(s, a);
    } else if a.DoFinishRead? || a.DoFree? {
      ReaderKeepsEvents(s, a);
    } else if a.DoRespond? || a.DoLeaveHandler? || a.DoDropRequestHandle? || a.DoVanish? {
      QuietKeepsEvents(s, a);
    } else {
      OtherKeepsEvents(s, a);
    }
  }

  lemma SignalEvent(s: State, d: Dir, c: nat, dir: Dir)
    requires CanWriter(s, d, c, Signalling)
    ensures EventOf(Signal(s, d, c), dir)
         == if d != dir then EventOf(s, dir) else if s.semaphore then EventOf(s, dir) + 1 else 1
  {
  }

  lemma WakeEvent(s: State, d: Dir, timeout: bool, dir: Dir)
    requires CanWake(s, d, timeout)
    ensures EventOf(Wake(s, d, timeout), dir)
         == if d != dir then EventOf(s, dir) else if s.semaphore && EventOf(s, dir) > 0 then EventOf(s, dir) - 1 else 0
  {
  }

  lemma EventStep(s: State, a: Action, dir: Dir)
    requires Shape(s) && Enabled(s, a)
    ensures var e, e' := EventOf(s, dir), EventOf(Step(s, a), dir);
            match a
            case DoSignal(d, _) => e' == if d != dir then e else if s.semaphore then e + 1 else 1
            case DoWake(d, _) => e' == if d != dir then e else if s.semaphore && e > 0 then e - 1 else 0
            case _ => e' == e
  {
    match a {
      case DoSignal(d, c) =>
        SignalEvent(s, d, c, dir);
        hide Signal;
      case DoWake(d, timeout) =>
        WakeEvent(s, d, timeout, dir);
        hide Wake;
      case _ =>
        hide Step, Enabled;
        EventsKept(s, a);
    }
  }

  // ---- Counting ----------------------------------------------------------------------------------

  /** Signals of one event in the first `k` steps. */
  ghost function Signals(acts: seq<Action>, dir: Dir, k: nat): nat
    requires k <= |acts|
  {
    if k == 0 then 0
    else Signals(acts, dir, k - 1) + if acts[k - 1].DoSignal? && acts[k - 1].dir == dir then 1 else 0
  }

  /** Waits that found a signal, among them. */
  ghost function Taken(run: seq<State>, acts: seq<Action>, dir: Dir, k: nat): nat
    requires k <= |acts| < |run|
  {
    if k == 0 then 0
    else Taken(run, acts, dir, k - 1) + if TakesSignal(run[k - 1], acts[k - 1], dir) then 1 else 0
  }

  predicate TakesSignal(s: State, a: Action, dir: Dir) {
    a.DoWake? && a.dir == dir && EventOf(s, dir) > 0
  }

  /** Signalled since the last wait. */
  ghost predicate Raised(acts: seq<Action>, dir: Dir, k: nat)
    requires k <= |acts|
  {
    k > 0 && if Touches(acts[k - 1], dir) then acts[k - 1].DoSignal? else Raised(acts, dir, k - 1)
  }

  lemma EventRunStep(run: seq<State>, acts: seq<Action>, k: nat, dir: Dir)
    requires IsRun(run, acts) && k < |acts|
    ensures run[k + 1].semaphore == run[k].semaphore
    ensures var e, e' := EventOf(run[k], dir), EventOf(run[k + 1], dir);
            match acts[k]
            case DoSignal(d, _) => e' == if d != dir then e else if run[k].semaphore then e + 1 else 1
            case DoWake(d, _) => e' == if d != dir then e else if run[k].semaphore && e > 0 then e - 1 else 0
            case _ => e' == e
    ensures acts[k] == DoWake(dir, false) ==> TakesSignal(run[k], acts[k], dir)
  {
    RunStep(run, acts, k);
    hide IsRun;
    EventStep(run[k], acts[k], dir);
    if acts[k] == DoWake(dir, false) {
      WaitFinds(run[k], acts[k], dir);
    }
    hide Enabled, TakesSignal;
  }

  lemma NoneAtFirst(run: seq<State>, acts: seq<Action>, dir: Dir)
    requires IsRun(run, acts)
    ensures |run| == |acts| + 1 && EventOf(run[0], dir) == 0
  {
    hide Step, Enabled;
  }

  lemma WaitFinds(s: State, a: Action, dir: Dir)
    requires Shape(s) && Enabled(s, a) && a == DoWake(dir, false)
    ensures TakesSignal(s, a, dir)
  {
  }

  /** A counting event holds the signals that no wait has taken; a latching one is set exactly if there has
      been a signal since the last wait. And a wait that does not time out has found one. */
  lemma {:induction false} EventsExact(run: seq<State>, acts: seq<Action>, k: nat, dir: Dir)
    requires IsRun(run, acts) && k <= |acts|
    ensures run[k].semaphore == run[0].semaphore
    ensures run[0].semaphore ==> EventOf(run[k], dir) + Taken(run, acts, dir, k) == Signals(acts, dir, k)
    ensures !run[0].semaphore ==> EventOf(run[k], dir) == if Raised(acts, dir, k) then 1 else 0
    ensures k < |acts| && acts[k] == DoWake(dir, false) ==> TakesSignal(run[k], acts[k], dir)
  {
    NoneAtFirst(run, acts, dir);
    hide IsRun;
    if k > 0 {
      EventsExact(run, acts, k - 1, dir);
      EventRunStep(run, acts, k - 1, dir);
    }
    if k < |acts| {
      EventRunStep(run, acts, k, dir);
    }
  }
}
