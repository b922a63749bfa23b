/** "The handle of a request's overflow region lives until the request has been read" is false of the
    code, in two ways: the watcher drops a slot's handle only after it has freed the slot, and a slow
    dispatch puts its own handle in the place of that of the slot's next request. */
module LostHandle {
  import opened Bytes
  import opened Layout
  import opened Slots
  import opened Protocol
  import opened Runs
  import opened Plays

  /** The second request is Ready, its region of generation `gen` in the handle map. */
  predicate SecondReady(s: State, id: seq<byte>, p: Payload, gen: nat) {
    && Shape(s) && |s.calls| == 2 && s.calls[1].id == id && s.calls[1].req.payload == p && s.calls[1].slot == 0
    && s.calls[1].stage == In(Ready) && s.PhaseOf(Req, 1) == Registering && s.status[0] == Ready && s.occ[0] == 1
    && s.calls[1].req.region.Some? && s.calls[1].req.marker == gen + 1
    && s.handles == map[(Req, 0) := s.calls[1].req.region.value]
  }

  lemma SecondPublished(o: State, s: State, id: seq<byte>, p: Payload, gen: nat) returns (t: State)
    requires Reaches(o, s) && Shape(s) && |s.calls| == 2 && CanPublish(s, Req, 1) && s.handles == map[]
    requires s.calls[1].id == id && s.calls[1].req.payload == p && s.calls[1].slot == 0 && s.occ[0] == 1
    requires s.calls[1].req.region.Some? && s.calls[1].req.marker == gen + 1
    ensures Reaches(o, t) && SecondReady(t, id, p, gen) && t.g == s.g && t.sync == s.sync && t.names == s.names
    ensures t.held == s.held
    ensures t.worker == s.worker && t.watcher == s.watcher && t.calls[0] == s.calls[0]
    ensures t.calls[1].req.region == s.calls[1].req.region
  {
    hide Reaches, ProgramOf;
    ReachStep(o, s, DoPublish(Req, 1));
    t := Publish(s, Req, 1);
    ReachStep(o, t, DoInsertHandle(Req, 1));
    t := InsertHandle(t, Req, 1);
  }

  /** A whole second dispatch, up to the insertion of its handle, after the slot has been freed. */
  lemma Second(o: State, s: State, id: seq<byte>, id': seq<byte>, p: Payload, gen: nat) returns (t: State)
    requires Reaches(o, s) && Alone(s, id, Inserting, Returned, Free) && ValidId(id') && id' != id
    requires Large(s.g, Req, p) && FirstFree(s.names, Req, gen)
    ensures Reaches(o, t) && Besides(s, t) && SecondReady(t, id', p, gen)
    ensures t.names.Keys == s.names.Keys + {Name(Req, 0, gen)}
    ensures t.names[Name(Req, 0, gen)] == t.calls[1].req.region.value
    ensures t.calls[1].req.region.value in t.held
  {
    hide Reaches, Large, FirstFree;
    t := Reused(o, s, id', p);
    t := LargeWritten(o, t, Req, 1, gen);
    hide CanPublish;
    t := SecondPublished(o, t, id', p, gen);
  }

  /** The watcher's late removal takes the second request's handle. */
  lemma Dropped(o: State, s: State, id: seq<byte>, p: Payload, gen: nat) returns (t: State)
    requires Reaches(o, s) && SecondReady(s, id, p, gen) && s.watcher.Freed? && s.watcher.i == 0
    ensures Reaches(o, t) && Shape(t) && t.g == s.g && t.calls == s.calls && t.status == s.status && t.occ == s.occ
    ensures t.names == s.names
    ensures t.worker == s.worker && s.calls[1].req.region.value !in t.held
  {
    hide Reaches;
    ReachStep(o, s, DoDropRequestHandle);
    t := DropRequestHandle(s);
  }

  /** A first exchange, up to the watcher's freeing of the slot. */
  lemma First(o: State, s: State, id: seq<byte>, r: Payload) returns (t: State)
    requires Reaches(o, s) && |s.calls| == 1 && Alone(s, id, s.PhaseOf(Req, 0), Idle, Writing) && CanPublish(s, Req, 0)
    requires s.worker == Waiting && s.watcher == Waiting && Findable(s) && Small(s.g, Rsp, r)
    ensures Reaches(o, t) && Alone(t, id, Inserting, Returned, Free) && Carries(s, t)
    ensures t.calls[0].rsp.payload == r && t.worker == Waiting && t.watcher.Freed? && t.watcher.i == 0
  {
    hide Reaches, Small, CanPublish, Alone;
    t := Exchange(o, s, id, r);
    t := Emptied(o, t, id);
  }

  /** The late removal, with all that leads up to it. */
  lemma LateRemoval(o: State, id: seq<byte>, q: Payload, r: Payload, id': seq<byte>, p: Payload) returns (t: State)
    requires Init(o) && Name(Req, 0, 0) !in o.names
    requires ValidId(id) && ValidId(id') && id != id' && Small(o.g, Req, q) && Small(o.g, Rsp, r) && Large(o.g, Req, p)
    ensures Reaches(o, t) && Shape(t) && t.g == o.g && |t.calls| == 2 && t.worker == Waiting && t.status[0] == Ready
    ensures t.occ[0] == 1
    ensures t.calls[0].id == id && t.calls[0].req.payload == q && t.calls[0].rsp.payload == r
    ensures t.calls[1].id == id' && t.calls[1].req.payload == p && t.calls[1].slot == 0 && t.calls[1].stage == In(Ready)
    ensures t.calls[1].req.region.Some? && t.calls[1].req.marker == 1 && t.calls[1].req.region.value !in t.held
    ensures Name(Req, 0, 0) in t.names && t.names[Name(Req, 0, 0)] == t.calls[1].req.region.value
  {
    hide Reaches, Init, Small, Large, CanPublish, Quiet;
    t := OpensSmall(o, id, q);
    t := First(o, t, id, r);
    assert FirstFree(t.names, Req, 0);
    hide FirstFree;
    t := Second(o, t, id, id', p, 0);
    t := Dropped(o, t, id', p, 0);
  }

  /** On every bus on which nobody holds the first request name, and for all requests and responses of
      these sizes, there is a run of that bus in which the second request is Ready, unread, and no longer
      protected by any handle. */
  lemma RequestHandleCanBeLost(o: State, id: seq<byte>, q: Payload, r: Payload, id': seq<byte>, p: Payload)
    requires Init(o) && Name(Req, 0, 0) !in o.names
    requires ValidId(id) && ValidId(id') && id != id' && Small(o.g, Req, q) && Small(o.g, Rsp, r) && Large(o.g, Req, p)
    ensures exists t ::
              && Reaches(o, t) && |t.calls| == 2
              && t.calls[0].id == id && t.calls[0].req.payload == q && t.calls[0].rsp.payload == r
              && t.calls[1].id == id' && t.calls[1].req.payload == p
              && t.calls[1].stage == In(Ready) && t.calls[1].req.region.Some? && t.calls[1].req.region.value !in t.held
  {
    hide Reaches, Init, Small, Large;
    var t := LateRemoval(o, id, q, r, id', p);
  }

  // ---- Unread for good ----------------------------------------------------------------------------------------

  /** The name goes, and the worker comes for the request. */
  lemma Abandoned(o: State, s: State) returns (t: State)
    requires Reaches(o, s) && Shape(s) && |s.calls| == 2 && s.worker == Waiting && s.status[0] == Ready && s.occ[0] == 1
    requires Name(Req, 0, 0) in s.names && s.names[Name(Req, 0, 0)] !in s.held
    ensures Reaches(o, t) && Shape(t) && t.worker == AtHead(0) && t.names == s.names - {Name(Req, 0, 0)}
    ensures t.occ == s.occ
    ensures t.calls == s.calls[1 := s.calls[1].(stage := In(Claimed))]
  {
    hide Reaches;
    ReachStep(o, s, DoVanish(Name(Req, 0, 0)));
    t := Vanish(s, Name(Req, 0, 0));
    t := Found(o, t, Req);
  }

  lemma GivenUp(o: State, s: State) returns (t: State)
    requires Reaches(o, s) && Shape(s) && |s.calls| == 2 && s.worker.Got? && s.worker.i == 0 && s.worker.result.None?
    requires s.occ[0] == 1
    ensures Reaches(o, t) && t.calls == s.calls[1 := s.calls[1].(stage := After(RequestUnread))]
  {
    hide Reaches;
    ReachStep(o, s, DoFinishRead);
    t := FinishRead(s);
  }

  /** On every such bus that request can then be dropped unread, although it was well-formed and the
      worker did all it should. */
  lemma RequestCanBeLost(o: State, id: seq<byte>, q: Payload, r: Payload, id': seq<byte>, p: Payload)
    requires Init(o) && Name(Req, 0, 0) !in o.names && |p.body| % U32 != 0
    requires ValidId(id) && ValidId(id') && id != id' && Small(o.g, Req, q) && Small(o.g, Rsp, r) && Large(o.g, Req, p)
    ensures exists t ::
              && Reaches(o, t) && |t.calls| == 2
              && t.calls[0].id == id && t.calls[0].req.payload == q && t.calls[0].rsp.payload == r
              && t.calls[1].id == id' && t.calls[1].req.payload == p && t.calls[1].stage == After(RequestUnread)
  {
    hide Reaches, Init, Small, Large;
    var t := LateRemoval(o, id, q, r, id', p);
    t := Abandoned(o, t);
    t := ReadsOn(o, t, Req);
    t := GivenUp(o, t);
  }

  // ---- The other way --------------------------------------------------------------------------------------------

  /** The first dispatch at last inserts its handle, over that of the second. */
  lemma Overwritten(o: State, s: State, id: seq<byte>, p: Payload, gen: nat) returns (t: State)
    requires Reaches(o, s) && SecondReady(s, id, p, gen) && s.calls[0].slot == 0 && s.PhaseOf(Req, 0) == Inserting
    requires s.calls[0].req.region.Some?
    ensures Reaches(o, t) && |t.calls| == 2 && t.calls[1] == s.calls[1] && s.calls[1].req.region.value !in t.held
    ensures t.calls[0].req.region == s.calls[0].req.region && t.handles == map[(Req, 0) := s.calls[0].req.region.value]
    ensures t.calls[0].id == s.calls[0].id && t.calls[0].req.payload == s.calls[0].req.payload
    ensures t.calls[0].rsp == s.calls[0].rsp
  {
    hide Reaches;
    ReachStep(o, s, DoInsertHandle(Req, 0));
    t := InsertHandle(s, Req, 0);
  }

  /** On every bus on which nobody holds the first two request names there is also a run of that bus in
      which a slow dispatch takes the handle of the next request: the second request is Ready, unread and
      unprotected, and where its handle should be the map holds that of the first. */
  lemma SlowDispatchTakesHandle(o: State, id: seq<byte>, q: Payload, r: Payload, id': seq<byte>, p: Payload)
    requires Init(o) && Name(Req, 0, 0) !in o.names && Name(Req, 0, 1) !in o.names
    requires ValidId(id) && ValidId(id') && id != id' && Large(o.g, Req, q) && Small(o.g, Rsp, r) && Large(o.g, Req, p)
    ensures exists t ::
              && Reaches(o, t) && |t.calls| == 2
              && t.calls[0].id == id && t.calls[0].req.payload == q && t.calls[0].rsp.payload == r
              && t.calls[1].id == id' && t.calls[1].req.payload == p
              && t.calls[1].stage == In(Ready) && t.calls[1].req.region.Some? && t.calls[1].req.region.value !in t.held
              && t.calls[0].req.region.Some? && t.handles == map[(Req, 0) := t.calls[0].req.region.value]
  {
    hide Reaches, Init, Small, Large, CanPublish, Quiet;
    var t := OpensLarge(o, id, q);
    t := First(o, t, id, r);
    ReachStep(o, t, DoDropRequestHandle);
    t := DropRequestHandle(t);
    assert FirstFree(t.names, Req, 1);
    t := Second(o, t, id, id', p, 1);
    t := Overwritten(o, t, id', p, 1);
  }
}
