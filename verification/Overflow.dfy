/** The namespace of overflow regions: exclusive creation, the walk over generations, and reading
    back by name (`region.rs`). */
module Overflow {
  import opened Bytes
  import opened Layout
  import opened Slots

  /** A named mapping. It is live while some process holds it and orphaned when only its backing file
      is left. */
  datatype Segment = Segment(live: bool, data: seq<byte>)

  datatype Error = OsError | Exhausted | TooSmall | NoSuchRegion

  datatype Result<+T> = Ok(value: T) | Err(error: Error)

  /** `faulty` are the names whose creation the operating system refuses for some other reason;
      `reclaims` says whether the platform can delete an orphaned backing file. */
  datatype Platform = Platform(reclaims: bool, faulty: set<string>)

  /** The name can neither be created nor is creating it an error: someone holds it, or it is an orphan
      that cannot be reclaimed. */
  predicate Occupied(segments: map<string, Segment>, os: Platform, name: string) {
    name !in os.faulty && name in segments && (segments[name].live || !os.reclaims)
  }

  function ReadSegment(segments: map<string, Segment>, name: string, len: nat): Result<seq<byte>> {
    if name !in segments then Err(NoSuchRegion)
    else if |segments[name].data| < len then Err(TooSmall)
    else Ok(segments[name].data[..len])
  }

  class Namespace {
    const os: Platform
    var segments: map<string, Segment>

    constructor (os: Platform, segments: map<string, Segment>)
      ensures this.os == os && this.segments == segments
    {
      this.os := os;
      this.segments := segments;
    }

    /** One creation attempt of `shared_memory`: false when the name exists. */
    method TryCreateExclusive(name: string, size: nat) returns (r: Result<bool>)
      modifies this
      ensures r.Err? <==> name in os.faulty
      ensures r.Err? ==> r.error == OsError
      ensures r.Ok? ==> r.value == (name !in old(segments))
      ensures segments == if r == Ok(true) then old(segments)[name := Segment(true, Zeros(size))] else old(segments)
    {
      if name in os.faulty {
        return Err(OsError);
      }
      if name in segments {
        return Ok(false);
      }
      segments := segments[name := Segment(true, Zeros(size))];
      return Ok(true);
    }

    /** `reclaim_orphaned_backing_file` */
    method ReclaimOrphan(name: string) returns (removed: bool)
      modifies this
      ensures removed <==> os.reclaims && name in old(segments) && !old(segments)[name].live
      ensures segments == if removed then old(segments) - {name} else old(segments)
    {
      removed := os.reclaims && name in segments && !segments[name].live;
      if removed {
        segments := segments - {name};
      }
    }

    /** `create_exclusive`: never adopts a mapping that someone else made. */
    method CreateExclusive(name: string, size: nat) returns (r: Result<bool>)
      modifies this
      ensures r.Err? <==> name in os.faulty
      ensures r.Err? ==> r.error == OsError
      ensures r == Ok(true) <==>
                name !in os.faulty && (name !in old(segments) || (os.reclaims && !old(segments)[name].live))
      ensures segments == if r == Ok(true) then old(segments)[name := Segment(true, Zeros(size))] else old(segments)
    {
      r := TryCreateExclusive(name, size);
      if r == Ok(false) {
        var removed := ReclaimOrphan(name);
        if removed {
          r := TryCreateExclusive(name, size);
        }
      }
    }

    /** `fill_overflow` of a region just created */
    method FillOverflow(name: string, data: seq<byte>) returns (r: Result<()>)
      requires name in segments
      modifies this
      ensures r == if |old(segments)[name].data| < |data| then Err(TooSmall) else Ok(())
      ensures segments == if r.Ok?
                          then old(segments)[name := old(segments)[name].(data :=
                                                       data + old(segments)[name].data[|data|..])]
                          else old(segments)
    {
      var region := segments[name];
      if |region.data| < |data| {
        return Err(TooSmall);
      }
      segments := segments[name := region.(data := data + region.data[|data|..])];
      return Ok(());
    }

    /** `create_overflow_fresh`: the least generation whose name can be exclusively created gets the
        data, under the marker that decodes to it; the call fails as exhausted exactly when all 255
        names are taken, and with the system's error when that stops the walk; no live region changes. */
    method CreateOverflowFresh(nameFor: nat -> string, data: seq<byte>) returns (r: Result<nat>)
      modifies this
      ensures r.Err? ==> (r.error == Exhausted || r.error == OsError) && segments == old(segments)
      ensures r == Err(Exhausted) <==>
                forall gen: nat :: gen <= MAX_OVERFLOW_GENERATION ==>
                  && nameFor(gen) !in os.faulty && nameFor(gen) in old(segments)
                  && (old(segments)[nameFor(gen)].live || !os.reclaims)
      ensures r.Ok? ==>
                var gen := r.value - 1;
                && 0 <= gen <= MAX_OVERFLOW_GENERATION && nameFor(gen) !in os.faulty
                && (nameFor(gen) !in old(segments) || (os.reclaims && !old(segments)[nameFor(gen)].live))
                && segments == old(segments)[nameFor(gen) := Segment(true, FilledPages(data))]
                && FirstOpen(old(segments), os, nameFor, gen)
      ensures r == Err(OsError) <==>
                exists gen: nat :: gen <= MAX_OVERFLOW_GENERATION && nameFor(gen) in os.faulty
                                   && forall earlier: nat :: earlier < gen ==>
                                        && nameFor(earlier) !in os.faulty && nameFor(earlier) in old(segments)
                                        && (old(segments)[nameFor(earlier)].live || !os.reclaims)
      ensures r.Ok? ==>
                forall gen: nat :: gen < r.value - 1 ==>
                  && nameFor(gen) !in os.faulty && nameFor(gen) in old(segments)
                  && (old(segments)[nameFor(gen)].live || !os.reclaims)
      ensures forall name :: name in old(segments) && old(segments)[name].live ==>
                name in segments && segments[name] == old(segments)[name]
    {
      var size := OverflowSize(|data|);
      OverflowCovers(data);
      ghost var was := segments;
      var gen := 0;
      while gen <= MAX_OVERFLOW_GENERATION
        invariant 0 <= gen <= MAX_OVERFLOW_GENERATION + 1
        invariant segments == was
        invariant AllTaken(was, os, nameFor, gen)
      {
        var name := nameFor(gen);
        var created := CreateExclusive(name, size);
        if created.Err? {
          return Err(created.error);
        }
        if created.value {
          var filled := FillOverflow(name, data);
          assert filled.Ok?;   // so the size check never fails the call
          assert FilledPages(data) == data + Zeros(size)[|data|..];
          return Ok(gen + 1);
        }
        gen := gen + 1;
      }
      return Err(Exhausted);
    }

    /** `read_overflow` */
    method ReadOverflow(name: string, len: nat) returns (r: Result<seq<byte>>)
      ensures r == ReadSegment(segments, name, len)
      ensures r.Ok? <==> name in segments && len <= |segments[name].data|
      ensures r.Err? ==> r.error == if name in segments then TooSmall else NoSuchRegion
      ensures r.Ok? ==> |r.value| == len && forall k :: 0 <= k < len ==> r.value[k] == segments[name].data[k]
    {
      if name !in segments {
        return Err(NoSuchRegion);
      }
      var region := segments[name];
      if len > |region.data| {
        return Err(TooSmall);
      }
      return Ok(region.data[..len]);
    }
  }

  /** The first `n` generations are all taken. */
  ghost predicate AllTaken(segments: map<string, Segment>, os: Platform, nameFor: nat -> string, n: nat) {
    forall gen: nat :: gen < n ==> Occupied(segments, os, nameFor(gen))
  }

  /** `gen` is the least generation that is not taken. */
  ghost predicate FirstOpen(segments: map<string, Segment>, os: Platform, nameFor: nat -> string, gen: nat) {
    AllTaken(segments, os, nameFor, gen) && !Occupied(segments, os, nameFor(gen))
  }

  /** A freshly filled region reads back, up to any length the slot may have kept of it. */
  lemma FreshReadsBack(segments: map<string, Segment>, name: string, data: seq<byte>, len: nat)
    requires name in segments && segments[name].data == FilledPages(data) && len <= |data|
    ensures ReadSegment(segments, name, len) == Ok(data[..len])
  {
    OverflowCovers(data);
    assert FilledPages(data)[..len] == FilledPages(data)[..|data|][..len];
  }
}
