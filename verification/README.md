# lazily: a verified model of its concurrent and replicated state machines

This project models five components of lazily and proves properties of every run of each.

- **The async reactive graph** (`src/async_context.rs`). Sources, async computed slots and effects in an
  arena with forward and reverse edges, revisions, generations and a free list. Every `inner.lock()` section is
  one function in `Graph.dfy`. `AsyncContext.dfy` is the object itself, with the worklist loops, and each of its
  methods is proved to compute that function. `Reactor.dfy`, `Lifecycle.dfy` and `Effects.dfy` interleave the same
  functions one lock section at a time, so an execution is any schedule of any number of writers, batches,
  readers, computes, effect runs, flushes and disposals. Root lists that have been captured and not yet walked,
  and flushes and runs that are half way, are part of the state.
- **The snapshot-plus-event bootstrap** (`src/boundary_ingress_core.rs`): a generation-fenced replica with a bounded
  reorder buffer (`Boundary*.dfy`).
- **The command projection** (`src/command.rs`): submits, progress, cancels and receipts folded with dedupe, fencing
  and fail-closed conflicts, and its resync image (`Command*.dfy`).
- **The bridge hub** (`src/bridge.rs`): write authorization, read filtering and per-peer epochs (`Bridge*.dfy`).
- **The lease** (`src/coordination.rs`): a fencing token and the lock that validates it (`Lease.dfy`).

A compute is a function from what a run has observed so far to its next operation: read a source, declare a
dependency, await a slot it has declared, or return. The graph's value type, the payloads and the peer identities are abstract
types. Integers are unbounded.

The freshness proof keeps, as history that no action reads, the first publication of each slot at each revision,
with what it observed and a stamp. A slot that is no longer up to date has a chain of such observations, with
falling stamps, that ends at a source with a walk or a batch still pending.

Four promises of the graph do not hold in every schedule. Each has a concrete schedule, and an exact condition proved
for all schedules:

- Live nodes come to name retired ids in three ways: a compute completes between the two lock sections of a disposal
  (`SymmetryBreaks.WindowBreaksSymmetry`); a run reads through the handle of a node that has been disposed, with no race
  at all (`SymmetryBreaks.StaleReadBreaksSymmetry`); an effect run is captured at an id that was vacated after its body
  was fetched, and reads a live node (`SymmetryBreaks.VacantCaptureBreaksSymmetry`). Over sources, async computeds and
  effects, up to any step of any execution, the edges are symmetric if and only if every read and every completion so
  far was clean: a read by a run that still owns its id had both ends of the edge there or neither, and a completion
  that wrote had tracked only nodes that were still there (`Symmetry.EdgesStaySymmetric`).
- A flush reads an effect's body and its generation in two lock sections. A disposal between them lets the old body run
  as the effect that reuses the id (`EffectCleanup.CaptureWindowAliases`), or, while the id is vacant, loses the
  cleanup that the run returns (`EffectCleanup.VacantWindowLoses`). The pairing is right if and only if the generation did
  not move in between (`EffectCleanup.CaptureOwnsIff`, `EffectCleanup.BodiesPairedIff`).
- Two overlapping runs of one effect lose a cleanup (`EffectCleanup.OverlapLoses`). In every schedule a finishing run
  loses a cleanup if and only if its generation is the one the id has now and either the effect there stores a cleanup,
  or the run returns one and no effect is there (`EffectTokens.FinishLosesIff`).
- A compute of a disposed slot that completes after all can resolve the slot that reuses the id
  (`LateSlots.LateSlotAliases`). It writes if and only if the id is a slot at the revision the run was spawned at
  (`LateSlots.LateSlotWritesIff`). The comments on `dispose_slot` (`src/async_context.rs:1750-1753`) and
  `retire_id_locked` (`src/async_context.rs:1669-1671`) say that a generation re-check prevents this; the completion
  (`src/async_context.rs:857-877`) compares the revision only. The model follows the code.

`dafny verify dfyconfig.toml` covers the whole project.

## Model

| member | source | states |
|---|---|---|
| `Freshness.CacheIsFresh` | src/async_context.rs:817-888 | in every interleaving, a resolved slot outside the cone of every pending walk, pending drain and batched cell holds the value its compute has from scratch over the current sources |
| `Freshness.RunsSeeOneWorld` | src/async_context.rs:839-877 | no glitch: all observations of a current run on a settled slot agree with one and the same state of the sources |
| `Freshness.DoomedIsPending` | src/async_context.rs:1022-1030 | a slot whose recorded observations are out of date lies in the cone of something still to be walked |
| `Freshness.InFlightIsCurrent` | src/async_context.rs:130-146 | a slot in `Computing{r}` has revision r, and its notifier belongs to a run at that revision |
| `Freshness.OneLiveRun` | src/async_context.rs:821-833 | at most one unpublished run of a slot is at the slot's revision |
| `Freshness.StaleNeverPublishes` | src/async_context.rs:855-879 | the completion of a superseded run leaves the whole graph unchanged; the completion of a current one resolves the slot to the run's result |
| `Progress.SlotsCanResolve` | src/async_context.rs:817-888 | the converse of freshness: every execution, whatever is pending or in flight at its end, can be continued with the same sources and computes until a slot that has a value from scratch is resolved to it |
| `Progress.CanCalmDown` | src/async_context.rs:1548-1567 | from every reachable world all open batches, drains and walks can be worked off without changing a source or a compute |
| `Progress.SpawnStarts` | src/async_context.rs:817-888 | a spawn puts a slot that is not in flight in flight at its revision with exactly one new run, its notifier, and moves nothing else; on a slot in flight nothing moves |
| `Progress.ObservationsAnswer` | src/async_context.rs:686-805 | an observation adds exactly one entry to what its run has seen, and it answers what was asked: the source's value, the slot's cached value, or the result published by the run subscribed to |
| `Progress.ClearedIsEmptied` | src/async_context.rs:1434-1451 | what is cleared is queued, and the walk of it empties every slot among it |
| `Progress.EffectsAreListed` | src/async_context.rs:2128-2162 | a node lists an effect that reads it at once, and still does when the effect finishes having tracked it |
| `ReactorHistory.NodesAreAsMade` | src/async_context.rs:936-958 | in every execution a slot computes what it was made to compute, an effect has its body, and a source holds the last value written to it, or the one it was made with |
| `ReactorHistory.WritesQueue` | src/async_context.rs:999-1031 | a write of the present value changes nothing at all; any other is marked inside an open batch and queues one walk from the readers outside |
| `ReactorHistory.DepthIsOpenBatches` | src/async_context.rs:1539-1553 | the batch depth is the number of batches entered and not left |
| `Reactor.FromScratchUnique` | src/async_context.rs:1238-1253 | evaluation from scratch has at most one value, whatever the depth of evaluation |
| `ReactorSteps.StepKeeps` | src/async_context.rs:999-1213 | every lock section of every thread keeps the invariant behind the freshness results |
| `Graph.ConeIsLeast` | src/async_context.rs:1150-1190 | the slots a walk reaches are inside every set that contains the root slots and is closed under slot dependents |
| `Graph.ConeIsClosed` | src/async_context.rs:1150-1190 | the slots a walk reaches are such a set, and all of them are slots |
| `AsyncContexts.AsyncContext.constructor` | src/async_context.rs:897-920 | a new context is the empty graph |
| `AsyncContexts.AsyncContext.Create` | src/async_context.rs:297-342 | a node takes the most recently freed id or the next new one, and the handle carries the id's generation |
| `AsyncContexts.AsyncContext.RegisterDependency` | src/async_context.rs:345-375 | both directions of one edge are inserted without duplicates, and a self edge is ignored |
| `AsyncContexts.AsyncContext.UpdateOwnDependencies` | src/async_context.rs:1094-1122 | the two loops over old and new dependencies compute the rewiring, whatever order the sets are visited in |
| `AsyncContexts.AsyncContext.InvalidateFrontier` | src/async_context.rs:1138-1197 | the worklist loop terminates on every graph, cycles included, invalidates exactly the cone and collects exactly the effects among the roots or adjacent to the cone |
| `AsyncContexts.AsyncContext.InvalidateDisposedDependents` | src/async_context.rs:1695-1735 | a disposal walk empties exactly the cone and schedules nothing |
| `AsyncContexts.AsyncContext.WriteSource` | src/async_context.rs:999-1031 | an equal write does nothing, a batched one is recorded, any other hands over the readers to walk |
| `AsyncContexts.AsyncContext.LeaveBatch` | src/async_context.rs:1548-1553 | only the outermost exit hands over the batched cells, and empties them |
| `AsyncContexts.AsyncContext.ScheduleEffect` | src/async_context.rs:2001-2008 | `force_run` is set and the effect is queued unless it already is |
| `AsyncContexts.AsyncContext.Dispose` | src/async_context.rs:1635-1683 | a matching handle detaches both directions, bumps the generation, frees the id and leaves the former readers; any other handle does nothing |
| `AsyncContexts.AsyncContext.DisposeAsyncEffect` | src/async_context.rs:1876-1920 | a matching handle dequeues the effect, detaches it, retires its id and yields the stored cleanup |
| `Batch.NestingIsTransparent` | src/async_context.rs:1539-1570 | inside a batch, inner batches have no effect of their own |
| `Batch.BatchRefinesSequence` | src/async_context.rs:1539-1570 | a batch nested to any depth ends with the sources, slot states, cached values and edges of the same writes made one by one; each slot behind a changed cell advances its revision exactly once, no other does |
| `Batch.BatchQueuesOnce` | src/async_context.rs:1553-1567 | the one walk at the end of a batch, from the state its writes left, collects exactly the effects that all the separate walks would, which are those that a path leads to from a changed cell; scheduling them queues each once, behind those queued before |
| `Batch.InfluenceIsPath` | src/async_context.rs:1150-1190 | a slot is in the cone of a set of cells, and an effect is affected by them, if and only if a path of edges through slots leads to it from one of them |
| `Batch.AffectedQueuedOnce` | src/async_context.rs:2001-2008 | however often a walk met them, effects are queued without duplicates and with `force_run` set |
| `Edges.RegisterSymmetricIff` | src/async_context.rs:345-375 | registering a read keeps the edges symmetric if and only if the reader and the node read are both there to take their half of the edge, or neither is |
| `Edges.RewireSymmetricIff` | src/async_context.rs:1094-1122 | rewiring keeps the edges symmetric if and only if every tracked id is a live source or slot |
| `Edges.DisposeSymmetric` | src/async_context.rs:1635-1683 | a disposal keeps the edges of all survivors symmetric and removes exactly the edges of the retired id |
| `Edges.DisposalIsClean` | src/async_context.rs:1754-1815 | a disposal whose two sections run back to back leaves no survivor that names the retired id in either direction, and every slot of its former cone empty |
| `Disposal.DisposalEmptiesCone` | src/async_context.rs:1695-1815 | however far apart the two sections lie, if no completion wrote and no other disposal succeeded in between, then after the walk every other slot of the former cone is empty, whatever else interleaved |
| `Lifecycle.NeverReissued` | src/async_context.rs:297-342 | in every interleaving live ids and the free list partition the ids handed out, and no (id, generation) pair is handed out twice |
| `Lifecycle.GenerationsGrow` | src/async_context.rs:1672-1683 | the generation of an id never falls |
| `Lifecycle.RetiredHandleIsInert` | src/async_context.rs:1754-1815 | once disposed, a handle of any kind names nothing for the rest of the run, and disposing through it changes nothing |
| `Lifecycle.LateRunRewiresNothing` | src/async_context.rs:690-694 | after a node has been disposed, no later read or effect completion of a run of that incarnation registers or rewires an edge, or changes anything else in the graph |
| `Symmetry.EdgesStaySymmetric` | src/async_context.rs:345-375 | in every execution, stale-handle reads and late captures included, the edges are mutual and duplicate-free up to a step if and only if every read and every completion before it was clean |
| `Symmetry.RetiredIdsAreNotNamed` | src/async_context.rs:1635-1683 | in every execution whose reads and completions were clean, over all interleavings, no survivor names a retired id in either direction |
| `Symmetry.SafeStaysSymmetric` | src/async_context.rs:345-375 | disciplines a caller can keep are enough: captures while the id is an effect's, reads through live handles, no late completion of a retired slot or inside the window of a disposal, no effect finish after something it read was disposed |
| `Symmetry.CompletionSymmetricIff` | src/async_context.rs:855-877 | a completion that writes keeps symmetry if and only if everything the run tracked is still readable |
| `Symmetry.TrackersStayReadable` | src/async_context.rs:1635-1665 | under those disciplines, outside the window of a disposal, a current compute has only tracked nodes that are still there |
| `SymmetryBreaks.WindowBreaksSymmetry` | src/async_context.rs:1754-1786 | the schedule in which a slot completes between the two sections of a disposal, and names a retired id |
| `SymmetryBreaks.StaleReadBreaksSymmetry` | src/async_context.rs:690-694 | the schedule in which, after a disposal is over, a run reads through the old handle and its slot names a retired id |
| `SymmetryBreaks.VacantCaptureBreaksSymmetry` | src/async_context.rs:2035-2068 | the schedule in which an effect run captured at a vacant id reads a live source, which then names a retired id |
| `LateSlots.LateSlotWritesIff` | src/async_context.rs:857-877 | in every execution the late completion of a disposed slot replaces the dependencies of whatever has the id, and if in flight resolves it with its own result, if and only if that is a slot at the run's revision; otherwise nothing changes |
| `LateSlots.LateSlotAliases` | src/async_context.rs:857-877 | the schedule in which a new slot holds the result of the disposed one's run while its own run is unfinished |
| `EffectQueue.PendingMirrorsScheduled` | src/async_context.rs:2001-2016 | in every interleaving of scheduling, flushing and disposal, the pending list is duplicate-free and equals the scheduled set |
| `EffectQueue.NoLostEffect` | src/async_context.rs:2001-2034 | an effect with `force_run` set is pending or still ahead in some flush; one scheduled and not yet spawned is waiting or past its check |
| `EffectQueue.DisposedIsDequeued` | src/async_context.rs:1884-1885 | a disposed effect leaves the queue and the scheduled set, and every other one stays |
| `EffectTokens.CleanupExactlyOnce` | src/async_context.rs:2069-2124 | in every schedule no cleanup is called twice or without having been returned; a returned one can still be called or has been if and only if no finish lost it; once the effect is disposed and its runs have ended it has been called if and only if no finish lost it |
| `EffectTokens.FinishLosesIff` | src/async_context.rs:2098-2123 | in every schedule a finish loses a cleanup, a stored one or its own, if and only if the run's generation is current and either the effect there stores one, or the run returns one and no effect is there |
| `EffectTokens.KeptUnlessLost` | src/async_context.rs:1876-1928 | in every schedule a returned cleanup has exactly one holder or has been called, unless a finish lost it, and what is lost stays lost |
| `EffectTokens.LateRunWritesNothing` | src/async_context.rs:2069-2124 | after an effect has been disposed, no run of that incarnation takes, stores or overwrites a cleanup in the graph at any later step of the schedule, whoever has the id |
| `EffectTokens.GenerationsRise` | src/async_context.rs:1910-1918 | along every effect schedule the generation of an id never falls |
| `EffectCleanup.OrderlyLosesNothing` | src/async_context.rs:2042-2124 | if captures are in time and runs of one effect do not overlap, no cleanup is ever lost, so all of them have been called once the effect is over |
| `EffectCleanup.RunsOwnBody` | src/async_context.rs:2035-2068 | if captures are in time, a run executes the body its effect incarnation was created with, overlapping or not |
| `EffectCleanup.BodiesPairedIff` | src/async_context.rs:2035-2068 | over whole schedules, every flush holds bodies of the incarnation it will run them for if and only if no disposal fell between a fetch and its capture |
| `EffectCleanup.OverlapLoses` | src/async_context.rs:2042-2107 | the schedule in which two overlapping runs of one effect lose the cleanup of the first |
| `EffectCleanup.CaptureOwnsIff` | src/async_context.rs:2035-2068 | in every schedule a flush pairs a body with its own incarnation if and only if no disposal came between its two reads |
| `EffectCleanup.CaptureWindowAliases` | src/async_context.rs:2035-2068 | the schedule in which a disposed effect's run leaves its cleanup in the effect that reuses the id |
| `EffectCleanup.VacantWindowLoses` | src/async_context.rs:2035-2107 | the schedule in which a run captured at a vacant id loses the cleanup it returns |
| `BoundaryIngress.BoundaryIngressCore.constructor` | src/boundary_ingress_core.rs:281-299 | a new replica is detached, empty and at generation 0 |
| `BoundaryIngress.BoundaryIngressCore.HotSubscribe` | src/boundary_ingress_core.rs:307-324 | an older generation changes nothing, any other resets everything but the clock and counters |
| `BoundaryIngress.BoundaryIngressCore.InstallSnapshot` | src/boundary_ingress_core.rs:328-381 | the new state, exactly the keys that disappeared closed once each in key order, every entry admitted, then the drained successors; always reported as a change |
| `BoundaryIngress.BoundaryIngressCore.PublishEvent` | src/boundary_ingress_core.rs:383-458 | the new state, actions and change flag for stale, fencing, early, known, next, gap and over-full frames |
| `BoundaryIngress.BoundaryIngressCore.DrainContiguous` | src/boundary_ingress_core.rs:460-479 | the draining loop applies every contiguous buffered frame and settles phase and replay point |
| `BoundaryIngress.BoundaryIngressCore.ApplyOne` | src/boundary_ingress_core.rs:481-501 | one payload moves cursor, stamp, keys and validation and emits its action |
| `BoundaryIngress.BoundaryIngressCore.JoinMember` | src/boundary_ingress_core.rs:504-517 | a new member is added once |
| `BoundaryIngress.BoundaryIngressCore.LeaveMember` | src/boundary_ingress_core.rs:520-526 | a present member is removed |
| `BoundaryInvariants.DrainStops` | src/boundary_ingress_core.rs:460-479 | the drain stops exactly at the first missing cursor, with everything before it applied in order and only later frames left |
| `BoundaryInvariants.RunsKeepInvariants` | src/boundary_ingress_core.rs:307-479 | in every run the buffer respects its bound and holds current-generation frames beyond the next cursor only; replay is requested exactly in ReplayRequired and Backpressured, from the cursor after the current one or from 0; without a cursor no key is held; with room to buffer, Live means a cursor, an empty buffer and a valid state, and Invalid the same with an invalid one |
| `BoundaryInvariants.GenerationNeverFalls` | src/boundary_ingress_core.rs:307-403 | the generation never decreases along a run |
| `BoundaryRecord.SubscribeStartsOver` | src/boundary_ingress_core.rs:307-324 | a subscription that is not behind leaves a new replica in all but its bound, stamp and counters; one that is behind changes nothing |
| `BoundaryRecord.NewerFrameStartsOver` | src/boundary_ingress_core.rs:395-420 | so does the first frame of a newer generation, except that the validation stays, and the frame waits |
| `BoundaryRecord.WaitingFrames` | src/boundary_ingress_core.rs:405-456 | a frame that has to wait is kept if there is room, and otherwise refused with a request to replay from the first missing cursor |
| `BoundaryRecord.MembersFollow` | src/boundary_ingress_core.rs:504-526 | in every run a member is present if and only if the last input with anything to say about it, a join, leave, snapshot, subscription or newer frame, says so |
| `BoundaryRecord.OutdatedAreCounted` | src/boundary_ingress_core.rs:332-339 | the stale counter is the number of frames and snapshots that were of an older generation when they came |
| `BoundaryRecord.ChangeIsRevision` | src/boundary_ingress_core.rs:383-458 | a frame is reported as a change exactly when the revision advances, and otherwise nothing is emitted and nothing but a buffered duplicate moves |
| `BoundaryRecord.StampIsOfCursor` | src/boundary_ingress_core.rs:481-501 | in every run the last stamp is that of an input at the replica's own generation and cursor |
| `Replication.ExactlyOnceInOrder` | src/boundary_ingress_core.rs:328-501 | if frames come from one log per generation and snapshots list what is present at their cursor, then under any loss, reordering or duplication a replica at cursor c holds a key if and only if the last log entry up to c to mention it upserts it, or none does and it was there first; its validation is that of the last entry to set one, or the first; and since its last snapshot it has emitted one admission per upsert and one close per removal, in log order |
| `BoundaryConfluence.BootstrapConfluence` | src/boundary_ingress_core.rs:326-479 | from a fresh subscription or any state of an older generation, one snapshot and any arrangement, with duplicates, of at most `max_buffered` distinct frames of its generation end in the same cursor, keys, members, validation, buffer, phase, replay point and stamp |
| `BoundaryConfluence.FrameSettles` | src/boundary_ingress_core.rs:383-458 | one more frame takes a settled replica to the one settled on the larger set |
| `CommandPlane.CommandProjection.constructor` | src/command.rs:555-557 | a new projection is empty |
| `CommandPlane.CommandProjection.FoldSubmit` | src/command.rs:582-600 | a known command id is a duplicate, a new one is recorded as submitted and raises the generation |
| `CommandPlane.CommandProjection.FoldEvent` | src/command.rs:603-625 | duplicate, unknown and stale events change nothing; others move an open command forward only |
| `CommandPlane.CommandProjection.FoldEvents` | src/command.rs:573-579 | a batch is the run of its events, and the verdict is that of the last one |
| `CommandPlane.CommandProjection.FoldCancel` | src/command.rs:629-645 | a cancel is remembered and changes no command |
| `CommandPlane.CommandProjection.ObserveReceipt` | src/command.rs:649-699 | the whole new state and verdict of a receipt, conflicts included |
| `CommandPlane.CommandProjection.ApplyProjection` | src/command.rs:702-714 | the loop over an image overwrites each entry and marks its event and receipt as seen |
| `CommandPlane.CommandProjection.ToImage` | src/command.rs:736-741 | the image lists every entry exactly once, in the order of the command ids |
| `CommandPermanence.EndedByReceipt` | src/command.rs:505-699 | a terminal command was ended by one receipt of its own generation while it was open and carries its reason and id; it is Applied exactly if the outcome was applied, Cancelled, Superseded or TimedOut exactly if it was rejected for that reason, and Rejected exactly if it was rejected for any other or none |
| `CommandPermanence.TerminalIsPermanent` | src/command.rs:582-699 | a terminal status, reason and receipt id never change, and the phase rank of a command never falls |
| `CommandPermanence.CallsMoveForward` | src/command.rs:851-859 | a polled call only moves from pending to resolved to conflict, and a resolution does not change |
| `CommandConvergence.FactsDecide` | src/command.rs:505-699 | for a command first submitted at generation g, the set of facts of that generation decides, independently of order and repetition, its conflict, its terminal flag, its status (by the outcome and reason of a receipt, or Running after a started or progress event, else Accepted after an observed or accepted one) and whether a call is told Conflict, Resolved or Pending |
| `CommandConvergence.ProjectionConverges` | src/command.rs:603-699 | any two orders, with duplicates, of the same facts give the same conflicts and terminal flags, and the same status for every unconflicted command |
| `CommandRecord.EntryOfFirstSubmit` | src/command.rs:582-600 | an entry carries the id and generation of the first submission of its command, whatever has come since |
| `CommandRecord.KnownIffSubmitted` | src/command.rs:582-600 | a command is known exactly when it has been submitted |
| `CommandRecord.GenerationIsLargest` | src/command.rs:586 | the projection's generation is the largest of its commands' |
| `CommandRecord.VerdictsTell` | src/command.rs:582-699 | over every run an input is a duplicate exactly if one with its id was recorded, unknown exactly if its command was never submitted, stale exactly if its generation is not the command's, and a terminal conflict exactly if it reports another status than the command has; each verdict names the right data |
| `CommandRecord.LastEventIsLast` | src/command.rs:617-618 | an entry names the last event recorded for its command, or none |
| `CommandResync.ImageOverwrites` | src/command.rs:702-714 | an image applied to any projection gives every listed command the image's entry, leaves every other one its own, takes the larger generation, marks exactly the listed last events and receipts as seen and leaves cancels and conflicts |
| `CommandResync.ImageRoundTrips` | src/command.rs:702-741 | the image of a projection applied to one that is behind it restores its generation and every entry |
| `CommandResync.ReplicaStarts` | src/command.rs:702-741 | a replica that was behind its source is in sync once it has applied an image, and is itself a source that can be imaged again |
| `CommandResync.ResyncBisimulation` | src/command.rs:603-742 | after a resync of a client that has run any prefix of the source's history, source and client stay equal on generation and on every command's status, terminal flag, reason, receipt id and generation under all further traffic, redeliveries included; the source's conflicts are those it had and those the client has |
| `BridgeHubs.BridgeHub.constructor` | src/bridge.rs:101-103 | a new hub has no attachment |
| `BridgeHubs.BridgeHub.Attach` | src/bridge.rs:120-134 | an attachment starts at epoch 0 with nothing sent |
| `BridgeHubs.BridgeHub.Drain` | src/bridge.rs:146-161 | the nested draining loops collect the authorized writes and the sync frames in order of source and arrival |
| `BridgeHubs.BridgeHub.FanOut` | src/bridge.rs:163-182 | every attachment but the origin gets each write filtered to its reads and stamped with its own epoch |
| `BridgeHubs.BridgeHub.FanOutSync` | src/bridge.rs:184-203 | every attachment but the origin gets each sync frame filtered to its reads |
| `BridgeHubs.BridgeHub.Poll` | src/bridge.rs:142-205 | one poll serves every attachment as specified, and returns the number of messages sent |
| `BridgeProofs.PollServes` | src/bridge.rs:142-205 | what one poll sends a peer is the visible batches of the others in order, stamped consecutively, then their visible sync frames |
| `BridgeProofs.Noninterference` | src/bridge.rs:142-248 | over the whole life of a hub, attachments between polls included, two histories with the same attachments and the same visible batches and frames for peer j send j the same stream, epochs included, whatever else they contain |
| `BridgeProofs.DeletionIsInvisible` | src/bridge.rs:142-248 | deleting every unauthorized or unreadable operation, and all that j sent, changes nothing j receives |
| `BridgeProofs.EpochsChain` | src/bridge.rs:172-179 | the deltas sent to a peer carry the epochs (0, 1), (1, 2), ... without a gap |
| `BridgeProofs.DeliveredExactly` | src/bridge.rs:163-248 | over the whole life of a hub a peer is sent exactly the cell writes that some other peer sent in a delta on a node in that peer's write grant and in the receiver's read grant: nothing forged, nothing that only it wrote itself, nothing withheld |
| `BridgeProofs.SyncDeliveredExactly` | src/bridge.rs:184-203 | over the whole life of a hub a peer is shown exactly the sync operations, with their frontier, that some other peer sent on a node in the receiver's read grant |
| `BridgeProofs.FilterTwice` | src/ipc.rs:1059-1071 | filtering by authorization and then by readability is one filter by both |
| `Lease.LeaseCore.constructor` | src/coordination.rs:35-41 | a new lease is free with fence 0 |
| `Lease.LeaseCore.Acquire` | src/coordination.rs:67-85 | a free or expired lease is granted with a new token, the holder's call renews with the same one, any other is refused |
| `Lease.LeaseCore.Renew` | src/coordination.rs:88-95 | only the live holder extends the expiry |
| `Lease.LeaseCore.Release` | src/coordination.rs:98-102 | only the holder drops the grant, and the token stays |
| `Lease.LeaseCore.Tick` | src/coordination.rs:105-112 | an expired grant is dropped and the edge reported |
| `LeaseHistory.AtMostOneLive` | src/coordination.rs:44-111 | in every run with a clock that does not go back, no two tokens are live at any instant, and the lease's answer about its holder is the one live token, the latest |
| `LeaseHistory.TokensKeepTheirPeer` | src/coordination.rs:67-111 | a token keeps its peer and start for ever, what was live in the past stays so, and later tokens start later |
| `LeaseHistory.AcquireGrants` | src/coordination.rs:67-85 | a granted token is the current one and belongs to the caller; it is new exactly when the lease was not held, the same exactly when the caller held it |
| `LeaseHistory.RenewExtends` | src/coordination.rs:88-95 | a renewal succeeds exactly for the live holder; it keeps the token and moves its end, and otherwise changes nothing |
| `LeaseHistory.ReleaseFrees` | src/coordination.rs:98-102 | a release by the live holder leaves nobody holding at any time, by anybody else it changes no answer; the token stays |
| `LeaseHistory.TickTells` | src/coordination.rs:105-112 | a tick changes no later answer and reports exactly that a recorded holder is found expired, once |
| `LeaseHistory.StaleTokensStayRefused` | src/coordination.rs:283-285 | once a later token has been granted, every earlier one is refused for the rest of the run |

## Left out

- Edges.DisposalIsClean: speaks of a disposal whose two lock sections run back to back; `Disposal.DisposalEmptiesCone` and `Symmetry.RetiredIdsAreNotNamed` speak of interleavings. A slot that recomputes between the sections may be resolved after them.
- BoundaryIngress.BoundaryIngressCore.JoinMember: does not fill the empty target set of an active delivery receipt, because delivery receipts are not modelled.
- BridgeHubs.BridgeHub.Poll: a transport error half way through a poll is not modelled; a source is the list of messages it yields, and every send succeeds.
- Freshness.CacheIsFresh: executions without disposal, in which computes read sources and await slots they have declared.
- BoundaryConfluence.BootstrapConfluence: does not compare the revision and stale-event counters, which count deliveries.
- Synchronous computeds and plain `get` on an async computed: neither re-checks a revision, and neither promises freshness under concurrency.
- The `Error` slot state, task handles and the moment of an abort: an aborted run may still take every step it had left.
- The dependency-tracker pool, `eval_detached`, teardown scopes and signals: they hold bare ids or add no state of their own.
- Values are compared by equality in the abstract, without the downcasts of `Arc<Any>`; user-defined equality in `computed_async` changes nothing downstream and is not modelled.
- Delivery receipts, logical time, freshness and readiness of the boundary replica: bookkeeping beside the replication protocol.
- `CommandAdmitter` and the RPC client's transport: admission decides what reaches the projection, which is modelled for all inputs.
- The merge semantics of sync frames: the hub only filters and forwards them.
- Semaphore, barrier, leader election and the reactive cells around the coordination cores.
- Wrap-around of 64-bit revisions, generations, cursors, epochs, clocks and fences.
- Serialization, transports, the other contexts, queues, topics and keyed collections of the library.
