/** "Every response is delivered" is false of the code, on every bus: Ready is published before the
    pending entry is inserted, and a worker that is quick enough has its response thrown away. */
module LostResponse {
  import opened Bytes
  import opened Layout
  import opened Slots
  import opened Protocol
  import opened Stages
  import opened Pending
  import opened Runs
  import opened Plays

  lemma OpenReceiver(o: State, s: State)
    requires Reaches(o, s) && |s.calls| == 1 && s.watcher.Resolving? && s.watcher.c == 0
    ensures s.calls[0].receiver.None?
  {
    ReachInv(o, s);
    ResolveTarget(s);
    assert CallPending(s, 0);
    hide Inv, StageInv, PendingInv;
  }

  lemma Unclaims(s: State)
    requires |s.calls| == 1 && s.pending == map[] && s.watcher.Resolving? && s.watcher.c == 0 && s.watcher.result.Some?
    ensures Resolve(s) == s.(watcher := Scanning(s.watcher.i + 1),
                             calls := s.calls[0 := s.calls[0].(stage := After(Unclaimed))])
  {
  }

  /** The watcher drops the slot's handle and finds no pending entry. */
  lemma Unmatched(o: State, s: State, id: seq<byte>) returns (t: State)
    requires Reaches(o, s) && Alone(s, id, Inserting, Returned, Free)
    requires s.watcher.Freed? && s.watcher.i == 0 && s.watcher.c == 0 && s.watcher.result.Some?
    ensures Reaches(o, t) && Alone(t, id, Inserting, Returned, Free)
    ensures t.calls[0].stage == After(Unclaimed) && t.calls[0].receiver.None?
    ensures t.calls[0].req.payload == s.calls[0].req.payload && t.calls[0].rsp.payload == s.calls[0].rsp.payload
  {
    hide Reaches, Resolve, Outcome;
    ReachStep(o, s, DoDropRequestHandle);
    t := DropRequestHandle(s);
    OpenReceiver(o, t);
    Unclaims(t);
    ReachStep(o, t, DoResolve);
    t := Resolve(t);
  }

  /** Only then does the dispatch make its entry. */
  lemma Discarded(o: State, s: State, id: seq<byte>) returns (t: State)
    requires Reaches(o, s) && Alone(s, id, Inserting, Returned, Free)
    requires s.calls[0].stage == After(Unclaimed) && s.calls[0].receiver.None?
    ensures Reaches(o, t) && |t.calls| == 1 && t.calls[0].id == id && id in t.pending && t.pending[id] == 0
    ensures t.calls[0].stage == After(Unclaimed) && t.calls[0].receiver.None?
    ensures t.calls[0].req.payload == s.calls[0].req.payload && t.calls[0].rsp.payload == s.calls[0].rsp.payload
  {
    hide Reaches;
    ReachStep(o, s, DoInsertHandle(Req, 0));
    t := InsertHandle(s, Req, 0);
    ReachStep(o, t, DoRegister(0));
    t := Register(t, 0);
  }

  /** On every bus and for every request and response that fit a slot's arena halves there is a run of
      that bus in which this response to this request is written and read without error and lost all the
      same; the pending entry is made only afterwards. */
  lemma ResponseCanBeLost(o: State, id: seq<byte>, q: Payload, r: Payload)
    requires Init(o) && ValidId(id) && Small(o.g, Req, q) && Small(o.g, Rsp, r)
    ensures exists t ::
              && Reaches(o, t) && |t.calls| == 1 && t.calls[0].id == id
              && t.calls[0].req.payload == q && t.calls[0].rsp.payload == r
              && t.calls[0].stage == After(Unclaimed) && t.calls[0].receiver.None? && id in t.pending
  {
    hide Reaches, Init, Small, CanPublish, Alone;
    var t := OpensSmall(o, id, q);
    t := Exchange(o, t, id, r);
    t := Emptied(o, t, id);
    t := Unmatched(o, t, id);
    t := Discarded(o, t, id);
  }
}
