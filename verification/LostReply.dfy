/** The same of responses, when handlers answer on threads of their own: a slow `send_response` puts its
    handle in the place of that of the slot's next response, and the watcher then cannot read that one. */
module LostReply {
  import opened Bytes
  import opened Layout
  import opened Slots
  import opened Protocol
  import opened Runs
  import opened Plays

  // ---- The slow response ----------------------------------------------------------------------------------

  /** The first request's response has been published, and its writer is about to insert its handle. */
  predicate Slow(s: State, id: seq<byte>, q: Payload, r: Payload, st: Status) {
    && Shape(s) && |s.calls| == 1 && s.pending == map[] && s.handles == map[] && Quiet(s.status) && !s.sync
    && s.status[0] == st && s.occ[0] == 0 && s.calls[0].slot == 0 && s.calls[0].id == id
    && s.calls[0].req.payload == q && s.calls[0].req.phase == Inserting && s.calls[0].req.region.None?
    && s.calls[0].rsp.payload == r && s.calls[0].rsp.phase == Inserting && s.calls[0].rsp.region.Some?
  }

  lemma SlowWritten(o: State, s: State, id: seq<byte>, r: Payload) returns (t: State)
    requires Reaches(o, s) && Alone(s, id, Inserting, Storing(0), Claimed) && s.calls[0].rsp.payload == r
    requires Large(s.g, Rsp, r) && Name(Rsp, 0, 0) !in s.names
    ensures Reaches(o, t) && Moved(s, t, Rsp, 0) && CanPublish(t, Rsp, 0) && t.calls[0].rsp.region.Some?
    ensures t.names.Keys == s.names.Keys + {Name(Rsp, 0, 0)}
  {
    assert FirstFree(s.names, Rsp, 0);
    hide Reaches, Large, FirstFree, CanPublish, Quiet;
    t := LargeWritten(o, s, Rsp, 0, 0);
  }

  lemma SlowPublished(o: State, s: State, id: seq<byte>, r: Payload) returns (t: State)
    requires Reaches(o, s) && |s.calls| == 1 && Alone(s, id, Inserting, Storing(0), Claimed)
    requires s.calls[0].rsp.payload == r
    requires Large(s.g, Rsp, r) && Name(Rsp, 0, 0) !in s.names && !s.sync && s.calls[0].req.region.None?
    ensures Reaches(o, t) && Slow(t, id, s.calls[0].req.payload, r, Done) && t.g == s.g && t.worker == s.worker
    ensures t.watcher == s.watcher && t.names.Keys == s.names.Keys + {Name(Rsp, 0, 0)}
  {
    t := SlowWritten(o, s, id, r);
    hide Reaches, Large, ProgramOf;
    ReachStep(o, t, DoPublish(Rsp, 0));
    t := Publish(t, Rsp, 0);
  }

  lemma SlowAnswer(o: State, s: State, id: seq<byte>, r: Payload) returns (t: State)
    requires Reaches(o, s) && Alone(s, id, Inserting, Asked, Claimed) && !s.sync && s.calls[0].req.region.None?
    requires Large(s.g, Rsp, r) && Name(Rsp, 0, 0) !in s.names
    ensures Reaches(o, t) && Slow(t, id, s.calls[0].req.payload, r, Done) && t.g == s.g && t.worker == s.worker
    ensures t.watcher == s.watcher && t.names.Keys == s.names.Keys + {Name(Rsp, 0, 0)}
  {
    hide Reaches, Large, Quiet, Slow;
    t := AnswerStarts(o, s, id, r);
    t := SlowPublished(o, t, id, r);
  }

  /** The watcher takes it all the same, and finds no pending entry or no region. */
  lemma SlowFreed(o: State, s: State, id: seq<byte>, q: Payload, r: Payload) returns (t: State)
    requires Reaches(o, s) && Slow(s, id, q, r, Done) && s.watcher == Waiting
    ensures Reaches(o, t) && Slow(t, id, q, r, Free) && t.g == s.g && t.worker == s.worker && t.names == s.names
    ensures t.watcher.Freed? && t.watcher.i == 0 && t.watcher.c == 0
  {
    hide Reaches;
    t := Found(o, s, Rsp);
    t := ReadsOn(o, t, Rsp);
    ReachStep(o, t, DoFree);
    t := FreeSlot(t);
  }

  /** What the watcher makes of a response for which there is no pending entry. */
  lemma ResolvesNone(s: State)
    requires s.watcher.Resolving? && s.pending == map[] && s.watcher.c < |s.calls|
    ensures var fate := if s.watcher.result.None? then ResponseUnread else Unclaimed;
            Resolve(s) == s.(watcher := Scanning(s.watcher.i + 1),
                             calls := s.calls[s.watcher.c := s.calls[s.watcher.c].(stage := After(fate))])
  {
  }

  lemma Resolved(o: State, s: State) returns (t: State)
    requires Reaches(o, s) && Shape(s) && s.watcher.Freed? && s.pending == map[] && s.watcher.c < |s.calls|
    ensures var fate := if s.watcher.result.None? then ResponseUnread else Unclaimed;
            && Reaches(o, t)
            && t == s.(watcher := Scanning(s.watcher.i + 1), handles := t.handles, held := t.held,
                       calls := s.calls[s.watcher.c := s.calls[s.watcher.c].(stage := After(fate))])
            && (s.handles == map[] ==> t.handles == map[])
  {
    hide Reaches, Resolve, Outcome;
    ReachStep(o, s, DoDropRequestHandle);
    t := DropRequestHandle(s);
    ResolvesNone(t);
    ReachStep(o, t, DoResolve);
    t := Resolve(t);
  }

  /** And both readers go back to waiting, with the slow writer still to insert its handle. */
  lemma SlowDone(o: State, s: State, id: seq<byte>, q: Payload, r: Payload) returns (t: State)
    requires Reaches(o, s) && Slow(s, id, q, r, Done) && s.worker == Scanning(1) && s.watcher == Waiting
    ensures Reaches(o, t) && Slow(t, id, q, r, Free) && t.g == s.g && t.names == s.names
    ensures t.worker == Waiting && t.watcher == Waiting
  {
    hide Reaches, Quiet;
    t := ScansOut(o, s, Req, 1);
    t := SlowFreed(o, t, id, q, r);
    t := Resolved(o, t);
    t := ScansOut(o, t, Rsp, 1);
  }

  // ---- The next one ------------------------------------------------------------------------------------------

  /** A second request is in slot 0. */
  predicate Later(s: State, first: Call, id: seq<byte>, q: Payload, req: Phase, rsp: Phase, st: Status) {
    && Shape(s) && |s.calls| == 2 && s.calls[0] == first && s.handles == map[] && !s.sync
    && s.pending == map[] && s.status[0] == st && s.occ[0] == 1
    && s.calls[1].slot == 0 && s.calls[1].id == id && s.calls[1].req.payload == q && s.calls[1].req.region.None?
    && s.calls[1].req.phase == req && s.calls[1].rsp.phase == rsp && s.calls[1].rsp.region.None?
  }

  lemma LaterReady(o: State, s: State, id: seq<byte>, q: Payload) returns (t: State)
    requires Reaches(o, s) && Shape(s) && |s.calls| == 1 && s.status[0] == Free && s.handles == map[]
    requires s.pending == map[]
    requires !s.sync && ValidId(id) && s.calls[0].id != id && Small(s.g, Req, q)
    ensures Reaches(o, t) && Later(t, s.calls[0], id, q, Inserting, Idle, Ready) && t.g == s.g && t.names == s.names
    ensures t.worker == s.worker && t.watcher == s.watcher
  {
    hide Reaches, Small;
    t := Reused(o, s, id, q);
    t := SmallWritten(o, t, Req, 1);
    hide ProgramOf;
    ReachStep(o, t, DoPublish(Req, 1));
    t := Publish(t, Req, 1);
  }

  lemma LaterAsked(o: State, s: State, first: Call, id: seq<byte>, q: Payload) returns (t: State)
    requires Reaches(o, s) && Later(s, first, id, q, Inserting, Idle, Ready) && s.worker == Waiting
    ensures Reaches(o, t) && Later(t, first, id, q, Inserting, Asked, Claimed) && t.g == s.g && t.names == s.names
    ensures t.watcher == s.watcher
  {
    hide Reaches;
    t := Found(o, s, Req);
    t := ReadsOn(o, t, Req);
    ReachStep(o, t, DoFinishRead);
    t := FinishRead(t);
  }

  lemma LaterAnswers(o: State, s: State, first: Call, id: seq<byte>, q: Payload, p: Payload) returns (t: State)
    requires Reaches(o, s) && Later(s, first, id, q, Inserting, Asked, Claimed)
    ensures Reaches(o, t) && Later(t, first, id, q, Inserting, Storing(0), Claimed) && t.calls[1].rsp.payload == p
    ensures t.g == s.g && t.names == s.names && t.watcher == s.watcher
  {
    hide Reaches;
    ReachStep(o, s, DoRespond(1, p));
    t := Respond(s, 1, p);
    ReachStep(o, t, DoDropStale(Rsp, 1));
    t := DropStale(t, Rsp, 1);
  }

  /** The second response is Done, its handle in the map, in a region of generation 1. */
  predicate LaterDone(s: State, first: Call, id: seq<byte>, q: Payload, p: Payload) {
    && Shape(s) && |s.calls| == 2 && s.calls[0] == first && s.pending == map[] && s.status[0] == Done && s.occ[0] == 1
    && s.calls[1].slot == 0 && s.calls[1].id == id && s.calls[1].req.payload == q && s.calls[1].rsp.payload == p
    && s.calls[1].stage == In(Done) && s.calls[1].rsp.region.Some? && s.calls[1].rsp.marker == 2
    && Name(Rsp, 0, 1) in s.names && s.names[Name(Rsp, 0, 1)] == s.calls[1].rsp.region.value
  }

  lemma LaterWritten(o: State, s: State, first: Call, id: seq<byte>, q: Payload, p: Payload) returns (t: State)
    requires Reaches(o, s) && Later(s, first, id, q, Inserting, Storing(0), Claimed) && s.calls[1].rsp.payload == p
    requires Large(s.g, Rsp, p) && FirstFree(s.names, Rsp, 1)
    ensures Reaches(o, t) && LaterDone(t, first, id, q, p) && t.g == s.g && t.watcher == s.watcher
    ensures t.handles == map[(Rsp, 0) := t.calls[1].rsp.region.value]
  {
    hide Reaches, Large, FirstFree;
    t := LargeWritten(o, s, Rsp, 1, 1);
    hide ProgramOf;
    ReachStep(o, t, DoPublish(Rsp, 1));
    t := Publish(t, Rsp, 1);
    ReachStep(o, t, DoInsertHandle(Rsp, 1));
    t := InsertHandle(t, Rsp, 1);
  }

  /** The slow writer at last inserts its handle, over that of the second response. */
  lemma Overtaken(o: State, s: State, first: Call, id: seq<byte>, q: Payload, p: Payload) returns (t: State)
    requires Reaches(o, s) && LaterDone(s, first, id, q, p) && s.handles == map[(Rsp, 0) := s.calls[1].rsp.region.value]
    requires first.slot == 0 && first.rsp.phase == Inserting && first.rsp.region.Some?
    ensures Reaches(o, t) && LaterDone(t, first.(rsp := first.rsp.(phase := Signalling)), id, q, p)
    ensures t.g == s.g && t.watcher == s.watcher && t.handles == map[(Rsp, 0) := first.rsp.region.value]
    ensures t.calls[1].rsp.region.value !in t.held
  {
    hide Reaches;
    ReachStep(o, s, DoInsertHandle(Rsp, 0));
    t := InsertHandle(s, Rsp, 0);
  }

  /** Both requests, up to that insertion. */
  lemma LateReply(o: State, id: seq<byte>, q: Payload, r: Payload, id': seq<byte>, q': Payload, p: Payload)
    returns (t: State, first: Call)
    requires Init(o) && !o.sync && Name(Rsp, 0, 0) !in o.names && Name(Rsp, 0, 1) !in o.names
    requires ValidId(id) && ValidId(id') && id != id' && Small(o.g, Req, q) && Small(o.g, Req, q')
    requires Large(o.g, Rsp, r) && Large(o.g, Rsp, p)
    ensures Reaches(o, t) && LaterDone(t, first, id', q', p) && t.g == o.g && t.watcher == Waiting
    ensures first.id == id && first.req.payload == q && first.rsp.payload == r && first.rsp.region.Some?
    ensures t.calls[1].rsp.region.value !in t.held && t.handles == map[(Rsp, 0) := first.rsp.region.value]
  {
    hide Reaches, Init, Small, Large;
    t := FirstReply(o, id, q, r);
    first := t.calls[0];
    assert FirstFree(t.names, Rsp, 1);
    t := LaterReady(o, t, id', q');
    hide Slow, FirstFree;
    t := LaterAsked(o, t, first, id', q');
    t := LaterAnswers(o, t, first, id', q', p);
    t := LaterWritten(o, t, first, id', q', p);
    t := Overtaken(o, t, first, id', q', p);
    first := t.calls[0];
  }

  lemma FirstReply(o: State, id: seq<byte>, q: Payload, r: Payload) returns (t: State)
    requires Init(o) && !o.sync && Name(Rsp, 0, 0) !in o.names
    requires ValidId(id) && Small(o.g, Req, q) && Large(o.g, Rsp, r)
    ensures Reaches(o, t) && Slow(t, id, q, r, Free) && t.g == o.g && t.names.Keys == o.names.Keys + {Name(Rsp, 0, 0)}
    ensures t.worker == Waiting && t.watcher == Waiting
  {
    hide Reaches, Init, Small, Large, CanPublish;
    t := OpensSmall(o, id, q);
    t := Handed(o, t, id);
    t := SlowAnswer(o, t, id, r);
    hide Slow;
    t := SlowDone(o, t, id, q, r);
  }

  /** On every bus with asynchronous handlers on which nobody holds the first two response names, and for
      all requests and responses of these sizes, there is a run of that bus in which the second response
      is Done, unread and unprotected, and where its handle should be the map holds that of the first. */
  lemma ResponseHandleCanBeLost(o: State, id: seq<byte>, q: Payload, r: Payload, id': seq<byte>, q': Payload,
                                p: Payload)
    requires Init(o) && !o.sync && Name(Rsp, 0, 0) !in o.names && Name(Rsp, 0, 1) !in o.names
    requires ValidId(id) && ValidId(id') && id != id' && Small(o.g, Req, q) && Small(o.g, Req, q')
    requires Large(o.g, Rsp, r) && Large(o.g, Rsp, p)
    ensures exists t ::
              && Reaches(o, t) && |t.calls| == 2
              && t.calls[0].id == id && t.calls[0].req.payload == q && t.calls[0].rsp.payload == r
              && t.calls[1].id == id' && t.calls[1].req.payload == q' && t.calls[1].rsp.payload == p
              && t.calls[1].stage == In(Done) && t.calls[1].rsp.region.Some? && t.calls[1].rsp.region.value !in t.held
              && t.calls[0].rsp.region.Some? && t.handles == map[(Rsp, 0) := t.calls[0].rsp.region.value]
  {
    hide Reaches, Init, Small, Large;
    var t, first := LateReply(o, id, q, r, id', q', p);
  }

  // ---- Unread for good ------------------------------------------------------------------------------------------

  /** The name goes, and the watcher comes for the response. */
  lemma Forsaken(o: State, s: State, first: Call, id: seq<byte>, q: Payload, p: Payload) returns (t: State)
    requires Reaches(o, s) && LaterDone(s, first, id, q, p) && s.watcher == Waiting
    requires s.calls[1].rsp.region.value !in s.held
    requires |p.body| % U32 != 0
    ensures Reaches(o, t) && Shape(t) && t.watcher.Got? && t.watcher.i == 0 && t.watcher.result.None?
    ensures t.calls == s.calls && t.status == s.status && t.occ == s.occ && t.pending == s.pending
  {
    hide Reaches;
    ReachStep(o, s, DoVanish(Name(Rsp, 0, 1)));
    t := Vanish(s, Name(Rsp, 0, 1));
    t := Found(o, t, Rsp);
    t := ReadsOn(o, t, Rsp);
  }

  /** On every such bus that response can then be lost because the watcher cannot read it. */
  lemma ReplyCanBeLost(o: State, id: seq<byte>, q: Payload, r: Payload, id': seq<byte>, q': Payload, p: Payload)
    requires Init(o) && !o.sync && Name(Rsp, 0, 0) !in o.names && Name(Rsp, 0, 1) !in o.names && |p.body| % U32 != 0
    requires ValidId(id) && ValidId(id') && id != id' && Small(o.g, Req, q) && Small(o.g, Req, q')
    requires Large(o.g, Rsp, r) && Large(o.g, Rsp, p)
    ensures exists t ::
              && Reaches(o, t) && |t.calls| == 2
              && t.calls[0].id == id && t.calls[0].req.payload == q && t.calls[0].rsp.payload == r
              && t.calls[1].id == id' && t.calls[1].req.payload == q' && t.calls[1].rsp.payload == p
              && t.calls[1].stage == After(ResponseUnread)
  {
    hide Reaches, Init, Small, Large;
    var t, first := LateReply(o, id, q, r, id', q', p);
    t := Forsaken(o, t, first, id', q', p);
    ReachStep(o, t, DoFree);
    t := FreeSlot(t);
    t := Resolved(o, t);
  }
}
