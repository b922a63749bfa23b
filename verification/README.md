# A verified model of slotbus

slotbus carries requests from any number of hub threads to a worker, and the responses back, through
one shared byte region. The parties coordinate only through one status word per slot, two wake-up
events, and overflow regions for bodies that do not fit. This project models that protocol in Dafny, in
four layers, and proves what it keeps over every run and every interleaving.

`dafny verify dfyconfig.toml` checks the whole project.

## Layers

- **Bytes and arithmetic.** `Bytes` (raw writes, little-endian casts), `Layout` (region layout, per-slot
  arenas, placement), `Slots` (the writers' programs as lists of raw writes at the offsets 4, 40, 44 …
  84, their footprints, and what the readers decode), `Structs` (the C layouts of the header
  and the slot structure agree with those offsets).
- **Regions and names as objects.** `ShmRegion` is a class over the mapped byte array with the
  operations of `region.rs`; `Overflow` is a class for the namespace of overflow regions with live and
  orphaned holders; `Names` prints overflow names; `RoundTrips` proves what the operations add up to, and
  `Wire` says in plain numbers which bytes they leave and what the readers make of any bytes.
- **The concurrent protocol.** `Protocol` is a step system with a program counter for every thread:
  `dispatch` calls, the worker's receive loop, one `send_response` per claimed request, and the response
  watcher. One step is one atomic access, one raw write, one read of a stretch of the slot, or one
  event operation, and the steps change the same bytes, by the same programs (`Slots.Program`), that the
  region class writes. `Stages`, `Memory`, `Regions`, `Readers`, `Pending`, `Wakeups` and
  `SyncHandlers` are the parts of its invariant, `Runs` puts them together, and `Races`, `Delivery`,
  `Progress`, `Events`, `Walks`, `Placement`, `Spills` and `Handles` state the results. `Plays` builds runs step by step, and
  `LostResponse`, `LostHandle` and `LostReply` use it to show what goes wrong.
- **The allocator that the arenas replaced.** `Bump` is a step system of threads racing on `alloc_head`.

The steps of `Protocol` follow `slotbus/src/transport.rs` and `slotbus/src/region.rs`: `Claim`
(region.rs:676-688), `DropStale` (transport.rs:151, 395), `WriteNext` (region.rs:759-836, 861-926),
`TryCreate` and `Fill` (region.rs:599-640), `Publish` (region.rs:836, 929), `Abort` (region.rs:738,
transport.rs:422), `InsertHandle` (transport.rs:163-168, 408-413), `Register` (transport.rs:170-175),
`Signal` (transport.rs:178, 415), `Wake` (events.rs:142-205), `Scan` (transport.rs:207-213, 450-462),
`Read` (region.rs:937-1000 and, for the id, transport.rs:218-222), `FinishRead` (transport.rs:463-497),
`Respond` (transport.rs:379-391), `FreeSlot` (transport.rs:227-238), `DropRequestHandle`
(transport.rs:240), `Resolve` (transport.rs:242-262). `Vanish` is any process letting go of, or
reclaiming, a name that no live handle of this bus protects.

## What the proofs assume

- There is one response watcher and one receive loop, and each handler calls `send_response` exactly
  once for its request. (`write_response` does not look at the slot's status.)
- Request ids are distinct over a run, at most 36 bytes long and without a zero byte.
- The heap is smaller than 2^32 bytes and there is at least one slot.
- A slot index passed to `write_request` names mapped memory; the function stores a status word there
  even when it rejects the index.
- Encoding metadata never fails, and decoding it is not modelled: metadata are bytes.
- Steps are sequentially consistent. Payload writes are separate steps, so that data-race freedom is a
  result and not an assumption; it is what makes this reading of the atomics legitimate.
- No other process creates a name of this bus while it runs: the names that others hold are there from
  the start, and can only go.
- A name stands for as long as the handle that created its region is held. (After that it may go at any
  time.)
- Runs end before `stop`, and no process crashes in the middle of the protocol.

Nothing is assumed about the lengths of metadata and bodies: the `as u8`, `as u16` and `as u32` casts are
modelled, and the round trips say that data come back exactly if and only if they are within the widths.

## Where code and documentation differ

- The repository's README describes four slot states; the code has five (`SLOT_WRITING`). The model has
  five.
- The README's diagram shows the magic number 0x48554231; the code uses 0x534C4231, and so does the
  model.
- "Every response is delivered" is not what the code does. `write_request` publishes Ready before
  `dispatch` inserts the pending entry, so a quick worker's response can be discarded:
  `LostResponse.ResponseCanBeLost` builds such a run on every bus, and `Delivery.DeliveredIff` says
  exactly when a response does arrive.
- An overflow region is not always protected until it is read, although the handle maps are there for
  that. The watcher removes a slot's request handle only after it has freed the slot
  (`LostHandle.RequestHandleCanBeLost`), and a slow dispatch may insert its own handle over that of the
  slot's next request (`LostHandle.SlowDispatchTakesHandle`); the request can then be dropped unread
  (`LostHandle.RequestCanBeLost`). With asynchronous handlers a slow `send_response` does the same to the
  next response (`LostReply.ResponseHandleCanBeLost`), and the watcher can then fail to read it
  (`LostReply.ReplyCanBeLost`). `Handles.HandleLostIff` and `Handles.HeldExactly` say for both directions
  that this happens at such steps and at no others, and `Handles.HandleSurvives` gives a condition under
  which none can come. Reads stay exact or fail all the same (`Spills.ExactOrError`,
  `Spills.FailsExactly`).

## Model

| member | source | states |
|---|---|---|
| Bytes.CastRoundTrip | slotbus/src/region.rs:792-793 | storing a number in a fixed-width field and loading it back gives it modulo the width |
| Bytes.ByteOrder | slotbus/src/region.rs:784-793 | the stored bytes of a two- or four-byte field, least significant first |
| Layout.ArenaGeometry | slotbus/src/types.rs:153-178 | the 2n arena halves are pairwise disjoint, 8-aligned, contiguous from heap offset 0, inside the heap, and leave at most 8n-1 bytes unused |
| Layout.RegionsDisjoint | slotbus/src/types.rs:124-128 | header, slot entries and heap do not overlap, nor do two different slot entries |
| Layout.InlineThreshold | slotbus/src/region.rs:211-214 | a request body beside fitting metadata is placed inline exactly up to the published capacity; the response limit is larger by the half difference, 0 or 8 |
| Layout.Threshold | slotbus/src/region.rs:713-717 | placement succeeds exactly when aligned metadata plus body fit the half; the overflow check never decides |
| Layout.WireNumbers | slotbus/src/types.rs:12-51 | the five status words are 0 to 4 as listed and pairwise distinct; magic and version |
| Layout.Markers | slotbus/src/types.rs:53-84 | the generations whose marker fits a byte are exactly 0 to 254; marker 0 has none, every other decodes to its generation |
| Layout.AlignExact | slotbus/src/types.rs:181-183 | `align8` is the least multiple of 8 not below, the arena rounding the greatest not above |
| Slots.ReceivedExact | slotbus/src/region.rs:789-830 | a payload survives the field-width casts exactly when the method is below 256 or the status below 65536, the metadata below 64 KiB and the body below 4 GiB |
| Slots.ReceivedIdExact | slotbus/src/region.rs:761-771 | an id survives truncation to 36 bytes and zero-termination exactly when it has at most 36 bytes and no zero byte |
| Slots.ReceivedIdPrefix | slotbus/src/region.rs:761-771 | of any other id the part before its first zero byte arrives, cut at 36 bytes |
| Slots.PlaceExact | slotbus/src/region.rs:713-717 | a body is empty, or right behind the aligned metadata if there is room, or spilled |
| Slots.FootprintsDisjoint | slotbus/src/types.rs:162-178 | the bytes one direction of a slot may write are shared with no other direction or slot |
| Slots.LandNext | slotbus/src/region.rs:759-836 | each write of a program lands and disturbs none of the earlier ones, the two-step id included |
| Slots.StoredHead | slotbus/src/region.rs:944-949 | once a program is in place, the id and the method or status read back up to their casts |
| Slots.StoredMeta | slotbus/src/region.rs:951-954 | once a program is in place, the pointer fields lead to the metadata written, up to the length cast |
| Slots.StoredBody | slotbus/src/region.rs:956-967 | once a program is in place, the fields lead to no body, the inline bytes written, or the generation and length of the spilled body |
| Slots.OverflowCovers | slotbus/src/region.rs:380-382 | an overflow region is the least whole number of pages, at least one, that holds its body, followed by zeros |
| Structs.LayoutsAgree | slotbus/src/types.rs:212-258 | the C layout of the slot structure has every field where the raw writes put it, and fills 128 bytes |
| Structs.HeaderAgrees | slotbus/src/types.rs:188-204 | the C layout of the header has its six words where they are stored, and fills the 64 bytes before the slot table |
| Names.DecimalRoundTrip | slotbus/src/config.rs:47-53 | a printed number reads back as itself |
| Names.DecimalDigits | slotbus/src/config.rs:47-53 | a printed number has the decimal digits of the number in order, with no leading zero |
| Names.PrintedNames | slotbus/src/config.rs:47-53 | the printed names: prefix, bus name, req or rsp, slot, and the generation unless it is 0 |
| Names.OverflowNamesInjective | slotbus/src/config.rs:47-53 | distinct (direction, slot, generation) triples of one bus print to distinct names |
| Overflow.Namespace.TryCreateExclusive | slotbus/src/region.rs:545-563 | creates an absent name, reports a taken one, changes nothing else |
| Overflow.Namespace.ReclaimOrphan | slotbus/src/region.rs:433-520 | removes a name exactly when it is orphaned and the platform reclaims |
| Overflow.Namespace.CreateExclusive | slotbus/src/region.rs:534-542 | creates a name exactly when it is absent, or an orphan on a platform that reclaims, and the system does not object; otherwise changes nothing |
| Overflow.Namespace.FillOverflow | slotbus/src/region.rs:628-640 | copies the data to the start of the region, or refuses one that is too small |
| Overflow.Namespace.CreateOverflowFresh | slotbus/src/region.rs:599-622 | the first generation whose name is absent or a reclaimable orphan gets the data, under the marker one above it; exhausted exactly when all 255 names are live or unreclaimable; a system error exactly when it is met first; no live region changes |
| Overflow.Namespace.ReadOverflow | slotbus/src/region.rs:643-653 | succeeds exactly when the name exists with enough bytes, and returns its first bytes; otherwise which of the two errors |
| Overflow.FreshReadsBack | slotbus/src/region.rs:628-653 | a freshly filled region reads back what was put in |
| ShmRegion.Region.InitControl | slotbus/src/region.rs:292-333 | refuses exactly a region or slot table larger than the mapping and then changes nothing; otherwise the heap begins at the end of the slot table and is the rest of the region, and the mapping is zero but for the header |
| ShmRegion.Region.ValidateControl | slotbus/src/region.rs:336-375 | accepts exactly when the first two words are magic and version and heap offset and size end inside the mapping; then the geometry is the next three words, otherwise it is unchanged |
| ShmRegion.Region.HeapReadChecked | slotbus/src/region.rs:160-168 | succeeds exactly when the range lies in the heap, and returns its bytes |
| ShmRegion.Region.HeapWriteChecked | slotbus/src/region.rs:184-197 | makes the one write when it lies in the heap, and otherwise none |
| ShmRegion.Region.WriteRequest | slotbus/src/region.rs:724-839 | the status word is Ready after success and Free after any failure; every outcome's exact writes in order; the bounds check of the heap never fails a call; which generation a spilled body gets |
| ShmRegion.Region.WriteResponse | slotbus/src/region.rs:844-932 | the same for responses: Done after success; a bad index changes nothing and a failure stores no status |
| ShmRegion.Region.ReadRequest | slotbus/src/region.rs:937-970 | the id and payload that the slot's bytes and overflow region decode to, or the error |
| ShmRegion.Region.ReadResponse | slotbus/src/region.rs:973-1000 | the response payload that the slot's bytes and overflow region decode to, or the error |
| ShmRegion.Region.ClaimFreeSlot | slotbus/src/region.rs:676-688 | without interference, takes the least Free slot, which is then Writing and no longer among the Free ones, while all others are as before; or finds that none is Free |
| ShmRegion.ClaimTakesOne | slotbus/src/region.rs:676-688 | storing Writing in a slot takes that slot and no other from the Free ones, so no later claim returns it until it is set back |
| ShmRegion.Region.HasInflight | slotbus/src/region.rs:261-269 | true exactly when some slot is not Free |
| RoundTrips.LayoutAgreement | slotbus/src/region.rs:292-375 | a peer accepts what was laid out and derives the same geometry exactly when it fits the header's words; every slot starts Free |
| RoundTrips.WriteStores | slotbus/src/region.rs:759-836 | after a successful call the whole program is in place under the published status |
| RoundTrips.WriteThenRead | slotbus/src/region.rs:724-1000 | write then read returns the payload up to the casts, hence exactly it if and only if it is within the limits, whether empty, inline or overflowed |
| RoundTrips.WriteFrame | slotbus/src/region.rs:744-932 | successful or not, a call changes no byte outside its direction's footprint and the slot's status word |
| RoundTrips.WriteKeepsReads | slotbus/src/types.rs:162-168 | a call, successful or not, does not change what reading another slot or the other direction gives, overflow regions included, whatever is there, if that slot's pointers stay in its own half |
| RoundTrips.StoredPointersOwn | slotbus/src/region.rs:784-830 | the pointers that a finished write leaves stay in the slot's own half |
| RoundTrips.WriteKeepsOthers | slotbus/src/types.rs:162-168 | hence a payload stored in another slot or direction still reads back after the call |
| Wire.FreshHeader | slotbus/src/region.rs:313-331 | after init the six header words are magic, version, slot count, heap offset, heap size and 0, and every other byte is zero |
| Wire.StatusAfter | slotbus/src/region.rs:724-932 | a finished request leaves status word 1, a failed one 0, a finished response 3, a failed one the word as it was; no other slot's word changes |
| Wire.FinishedBytes | slotbus/src/region.rs:759-830 | every field that a finished call leaves: id, method or status, and for metadata and body where they lie, how long they are and which region has them, and the bytes at those places |
| Wire.ReadAnything | slotbus/src/region.rs:937-1000 | reading a slot with any content: exactly when it succeeds, what it returns, and which error it gives otherwise |
| Wire.ReadAnyId | slotbus/src/region.rs:944-949 | the id read from any content is the field up to its first zero byte |
| Stages.StageStep | slotbus/src/types.rs:34-51 | every step keeps each thread's position in agreement with its slot's status, and one request per occupied slot |
| Memory.MemStep | slotbus/src/region.rs:744-932 | every step keeps each writer's finished writes in place, and published payloads complete |
| Regions.RegionsStep | slotbus/src/region.rs:599-654 | every step keeps the name in a slot's marker leading to the occupant's own region or nowhere |
| Readers.DataInPlace | slotbus/src/transport.rs:215-223 | while a reader is at a slot, everything it may look at is in place |
| Readers.ReadersStep | slotbus/src/transport.rs:215-223 | every step keeps what a reader has read so far equal to what the occupant wrote |
| Pending.ResolveTarget | slotbus/src/transport.rs:244-245 | the id the watcher looks up is that of the request it took, and an entry found under it is that request's own |
| Pending.PendingStep | slotbus/src/transport.rs:170-175 | every step keeps the pending map and the receivers as they should be |
| Wakeups.WakeupsStep | slotbus/src/events.rs:43-46 | every step keeps every Ready and Done slot announced |
| SyncHandlers.SyncStep | slotbus/src/transport.rs:393-413 | with handlers on the receive thread, every step keeps the regions of responses held while needed |
| Runs.RunInv | slotbus/src/transport.rs:134-502 | the whole-system invariant holds in every state of every run |
| Runs.BootStarts | slotbus/src/region.rs:292-333 | every sound geometry has an initial state, so runs exist |
| Races.DataRaceFreedom | slotbus/src/transport.rs:143-498 | a byte that one thread may be writing is one that no other thread may be writing or reading |
| Races.StepsWriteOwnBytes | slotbus/src/region.rs:744-932 | only bytes that a thread may write in that sense ever change |
| Races.ReadsDependOnOwnBytes | slotbus/src/region.rs:937-1000 | a reader's next read depends only on bytes it may read in that sense |
| Races.RegionRaceFreedom | slotbus/src/region.rs:628-653 | an overflow region being filled is never one being copied |
| Delivery.History | slotbus/src/transport.rs:134-183 | each request's id and payload are those of the call that began it, its response that of the call that answered it |
| Delivery.EndToEnd | slotbus/src/transport.rs:134-262 | a delivered response is what `send_response` was given for the same dispatch, whose handler had seen exactly the dispatched id and payload |
| Delivery.HandlersSeeTheirRequest | slotbus/src/transport.rs:463-491 | a handler is given exactly the id and payload of one dispatch |
| Delivery.ResolvedOnce | slotbus/src/transport.rs:244-257 | two delivering steps of a run never send to the same receiver |
| Delivery.ResolvedKept | slotbus/src/transport.rs:244-257 | what a receiver has been resolved with never changes |
| Delivery.RespondedOnce | slotbus/src/transport.rs:379-426 | no request is answered twice |
| Delivery.Conservation | slotbus/src/transport.rs:207-262 | every published request is in exactly one place: in a slot, in the watcher's hands, delivered, or lost in one of four ways |
| Delivery.PendingExact | slotbus/src/transport.rs:170-175 | the pending map is exactly the registered requests whose receiver is unresolved |
| Delivery.DeliveredIff | slotbus/src/transport.rs:242-262 | a response reaches its receiver if and only if it was readable and its pending entry had been inserted |
| LostResponse.ResponseCanBeLost | slotbus/src/transport.rs:153-175 | every bus has a run in which a given response to a given request, both of inline size, is written, read and lost, because the pending entry comes too late |
| Handles.HandleLostIff | slotbus/src/transport.rs:149-168 | while a request is in its slot, a step takes the handle of an overflow region of its request or response if and only if it is the insertion by the same direction's writer of an earlier request, or for requests the watcher's removal for an earlier one, that finds that handle in the map |
| Handles.HeldExactly | slotbus/src/transport.rs:149-168 | in every state, for either direction, the region is held exactly if no such step has come since its creation |
| Handles.HandleMaps | slotbus/src/transport.rs:149-168 | what every step of every run does to the handle maps: the stale handle of a slot is dropped before the slot is written, an inserted one replaces and drops what was there, the watcher drops the request's, and nothing else changes them |
| Handles.HandleSurvives | slotbus/src/transport.rs:163-168 | once the handle is inserted, no earlier writer of the slot has one to insert and, for requests, the watcher is not about to drop one of this slot, the region stays held while the request is in the slot |
| LostHandle.RequestHandleCanBeLost | slotbus/src/transport.rs:225-240 | every bus on which nobody holds the first name has a run in which given requests and a given response leave the second request Ready and unread without a handle, by the watcher's late removal |
| LostHandle.RequestCanBeLost | slotbus/src/transport.rs:493-496 | such a run can go on to drop that request unread |
| LostHandle.SlowDispatchTakesHandle | slotbus/src/transport.rs:163-168 | every bus on which nobody holds the first two names has a run in which a slow dispatch's handle stands in the map in the place of that of the next request, which is Ready, unread and unprotected |
| LostReply.ResponseHandleCanBeLost | slotbus/src/transport.rs:407-413 | every bus with asynchronous handlers on which nobody holds the first two response names has a run in which a slow `send_response` does so to the next response, which is Done and unprotected |
| LostReply.ReplyCanBeLost | slotbus/src/transport.rs:259-261 | such a run can go on to lose that response because the watcher cannot read it |
| Progress.StoresAreExchanges | slotbus/src/transport.rs:225-238 | in every run each unconditional store finds its slot in the expected state and owned by the storing thread (for the worker's store, with no dispatch and no `send_response` at work on the slot), and the watcher's exchange never fails |
| Progress.StatusWalk | slotbus/src/types.rs:34-51 | in every step each status word stays or moves along an edge of the state graph, moved by the owner for that edge |
| Progress.ClaimsExclusive | slotbus/src/region.rs:668-675 | two dispatches never hold the same slot at once |
| Progress.ClaimOutcome | slotbus/src/region.rs:676-688 | giving up means every slot was found taken at a moment within the call; a slot taken was Free, and all before it had been found taken |
| Walks.WalkOutcome | slotbus/src/region.rs:599-622 | under interference, a spilled body gets the first generation that its writer did not find taken; without a system error a writer gives up only after finding all 255 taken, each at a moment within the call |
| Progress.NoLostWakeup | slotbus/src/events.rs:43-46 | a Ready or Done slot is still to be signalled by its writer, or the event is set, or the reader will visit it or is at work on it |
| Progress.Quiescence | slotbus/src/transport.rs:205-213 | when everyone is idle or blocked on clear events, every slot is Free |
| Events.EventsExact | slotbus/src/events.rs:142-205 | a counting event holds exactly the signals no wait has taken, a latching one is set exactly if there has been a signal since the last wait, and a wait returns early only with a signal |
| Progress.DrainStep | slotbus/src/transport.rs:207-240 | without running dispatches any status change lowers the total weight |
| Progress.Drains | slotbus/src/transport.rs:450-498 | then at most three status changes per slot remain in any run |
| Placement.TooLargeIff | slotbus/src/region.rs:713-717 | whether a payload is too large for its half does not depend on the slot |
| Placement.WritesInBounds | slotbus/src/region.rs:184-197 | no write of any run is stopped by the bounds check |
| Placement.RoomIsEnough | slotbus/src/types.rs:130-147 | a payload that fits its half is never refused, and it is inline exactly then, whatever the traffic |
| Placement.HistoryIndependence | slotbus/src/region.rs:777-811 | two calls of any two runs with the same slot, layout and lengths decide alike and write at the same offsets |
| Placement.SamePlacement | slotbus/src/region.rs:777-830 | once finished, two such writes lie at the same place, as the slot's fields in memory say, inline or spilled alike |
| Spills.ExactOrError | slotbus/src/region.rs:956-967 | a finished read is the current occupant's payload, or an error that only a spilled body can meet |
| Spills.FailsExactly | slotbus/src/region.rs:643-653 | a read turns into an error exactly at the opening of a spilled body whose name is gone, which is only after its handle was dropped |
| Spills.CopiesOwnRegion | slotbus/src/region.rs:643-653 | a region being copied was made by the request being read and holds its body |
| Spills.SynchronousNeverFails | slotbus/src/transport.rs:393-415 | with handlers on the receive thread the response region is held and named while its slot is Done, and the watcher never fails to read |
| Bump.BlocksDisjoint | slotbus/src/region.rs:226-248 | every block handed out since the last reset is aligned and in bounds, and no two of them share a byte |
| Bump.AllocAlone | slotbus/src/region.rs:226-248 | without interference a call gets the block at the head, and the head moves past it, exactly when it fits |
| Bump.ResetsSawFree | slotbus/src/region.rs:279-287 | the head is reset only by a thread that has itself found every slot Free, one after the other |
| Bump.OverlapExhausts | slotbus/src/region.rs:271-287 | if a slot is taken at every look of every reset check, at most heap_size / 8 non-empty allocations ever succeed |
| Bump.RetriesBounded | slotbus/src/region.rs:230-247 | without resets a thread's exchange fails at most heap_size / 8 times |

## Left out

- The threads of `transport.rs` are step functions over one state, not methods of classes: a method body would run without interruption, and interleaving is the point there. Update in place and aliasing of the region are captured by `ShmRegion`, one caller at a time.
- `stop`, dropping a bus or worker, and crashes in the middle of the protocol.
- The weak memory model: steps are sequentially consistent.
- Liveness of threads: the results say what is true of every run, not that a thread is ever scheduled.
- Operating-system events, the `shared_memory` crate, backing files and their paths: an event is a flag or a counter, a name is absent, orphaned or live.
- Postcard encoding, UTF-8 conversion, method strings and the fields of `RequestMeta` and `ResponseMeta`: metadata and ids are bytes, the method is its byte.
- The hashed names of macOS, which are not injective, and `create_overflow`, which the protocol does not call.
- Receivers dropped by their owners: sending on a closed channel is a delivery here.
- Tracing, instrumentation, configuration builders and the deprecated `find_free_slot`.
