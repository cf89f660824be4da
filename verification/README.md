# Verification model of the StateSpectre offload daemon

This project models the state machines of the StateSpectre tensor-offload daemon in Dafny and proves what they promise. The daemon lends runs of pinned slots to training ranks, takes their tensors in by GPU copies, drains them to pageable memory or striped NVMe files, keeps deduplicated canonical objects of model versions, and serves restores and pulls.

`dafny verify dfyconfig.toml` checks everything. Each component has its own modules:

- **Slot machine** (`SlotTable`, `DaemonState`, `DaemonInv`, `Durability`, `Fencing`, `Commute`, `Allocator`, `OffloadDaemon`; `OneSlot` and `DaemonWitness` hold runs in which a guarantee fails). Every critical section is a step, and so are GPU copies and drain IO done with the mutex released. Theorems are about all interleavings. `OffloadDaemon` is the class with the loops; its methods are proved to be those steps.
- **Completion ring** (`Bits`, `CompletionRing`, `RestoreWait`). Loads, slot writes and index stores are separate steps of two threads.
- **Canonical store** (`CanonicalKey`, `CanonicalStore`, `StoreInv`, `CanonicalRuns`, `StoreLoops`, `CanonicalTable`; `StoreWitness` holds runs in which a guarantee fails). `CanonicalTable` is the class with the loops.
- **Restore hold** (`HoldModel`, `HoldSteps`, `HoldInv`, `HoldRelease`, `HoldFrames`, `HoldTransfers`, `HoldWarm`, `RestoreHold`, `HoldGauge`; `HoldWitness` holds runs in which a guarantee fails). Both machines together.
- **NVMe store** (`NvmeLayout`, `NvmeBlocks`, `NvmeRegions`, `NvmeFetch`, `NvmeEngines`, `NvmeWindow`, `NvmeUring`, `NvmeUringRead`). The sequential and the asynchronous engine, on files and cursors.
- **Codecs** (`WireFormat`, `WireLaws`, `WireCodec`, `WireMessages`, `WireCatalog`, `WireStream`, `PyWire`). A message is a list of typed fields; the laws hold for every such list, `WireCatalog` has the list of every message.
- **Configuration** (`ConfigText`, `ConfigTree`, `ConfigRoundTrip`, `ConfigParser`, `ConfigArenas`, `SlotPlan`). From text to filled slot table.

## What is taken for granted

- `Durability.Enabled`: a GPU stream writes only while its lease is in the table and awaits the copy; completions follow their copy; drain IO that reports success copied everything; a registration or timeout recovers exactly the sessions and leases the code's loops visit, in some order. `Durability.CopyKeepsIff` says exactly which other copies would do no harm.
- `Fencing.Strict`: a reservation commits under the epoch check it began with, that is, without a forced drain in between. `Fencing.LateReserveUnfences` is the exact condition otherwise.
- `CanonicalRuns.Enabled`: an evict uses its key's own string; a creation finds its rank alive and its key free when it has the mutex again. `CanonicalRuns.CreateKeepsStoreIff` is the exact condition.
- `HoldModel.Enabled`: object ids stay below the candidate bit; plain reservations do not use the tensor ids of objects; agents do not release canonical leases by the plain call, and candidate commits name candidate leases (`RestoreHold.PlainReleaseBreaksIff`, `RestoreHold.CommitBreaksIff`); every restore release matches a grant (`RestoreHold.SpareReleaseIff`); a restore that read its object back finds it still in the table (`RestoreHold.WarmCommitHoldsIff`); the forced drains by which a restore makes room are atomic with it.
- Acquire and release orderings are taken as interleaving of the marked steps.

## Findings

Properties that do not hold of the code as it stands, each with its exact condition, and, for the state machines, with a run from the initial state into the failing case:

- A restore of a cold object releases the mutex before it raises the restore count. A drop, retention, release or purge in that window erases the object, and the restore is granted all the same: `RestoreHold.DropDuringReadBack`, `HoldWitness.HoldLost`; exact condition `RestoreHold.WarmCommitHoldsIff`.
- The byte gauge counts a read-back run only when it succeeds and subtracts it when it fails, so every failure lowers it for good: `HoldWitness.GaugeDrifts`; exact conditions `HoldGauge.GaugeExactIff`, `HoldGauge.NoDriftIff`.
- A copy that lands after its lease was released or its rank timed out spoils the version that is pinned there by then: `DaemonWitness.LateCopyRun`, `Durability.LateCopySpoils`; exact condition `Durability.CopyKeepsIff`.
- A reservation that waited in a forced drain commits without re-checking its epoch and gives a fenced session a lease: `DaemonWitness.LateReserveRun`; exact condition `Fencing.LateReserveUnfences`.
- A creation does not look again after its reservation, when its key may be taken or its rank dead: `StoreWitness.KeyTakenRun`, `StoreWitness.RankDeadRun`; exact condition `CanonicalRuns.CreateKeepsStoreIff`.
- A failed staging of the last hold leaves an orphan: `StoreWitness.OrphanRun`; exact condition `CanonicalRuns.HeldStep`.
- A version that survives retention only because a tensor of it is being read loses its idle tensors: `StoreWitness.SurvivorLosesIdleObjects`; exact condition `CanonicalRuns.SurvivorWholeIff`.
- Two windows with one (node, gpu) key hide the first: `Allocator.ShadowedWindowIsMissed`; exact condition in `Allocator.AllocateSlots`.
- The wait for the ring compares wrapped indices and ends early across 2^64: `RestoreWait.EarlyExitExample`; exact condition `RestoreWait.EarlyExitIff`.
- The capacity rounding does not end above 2^31: `CompletionRing.RoundingTerminatesIff`.
- The sequential NVMe read reports success on a truncated file and delivers bytes of earlier blocks in place of the missing ones, the asynchronous one refuses: `NvmeEngines.StripeFiles.ReadPread`, `NvmeUringRead.ReadUring`.
- With more than 64 buffers and more than 64 blocks, requests in flight share I/O vectors, and block 0 is written from another block's buffer; from 2^32 blocks on, cookies are shared: exact conditions `NvmeWindow.FirstPassIntactIff`, `NvmeWindow.CookieExactIff`.
- Lists of 2^32 entries lose their count, and the statistics reply drops values without names: `WireLaws.RoundTripIff`, `WireMessages.StatsBackIff`.
- Validation adds window sizes modulo 2^64 and the table counts slots modulo 2^32: `SlotPlan.WrapExample`, `SlotPlan.TableExample`; exact conditions `SlotPlan.AcceptedInArenaIff`, `SlotPlan.PlanGoodIff`. Sizes in GiB wrap as well: `ConfigArenas.SizedExactIff`.

## Model

| member | source | states |
|---|---|---|
| `OffloadDaemonObject.OffloadDaemon.constructor` | src/daemon/daemon.cpp:217-275 | a fresh daemon: all slots free, empty tables, which is an initial state of the runs below |
| `OffloadDaemonObject.OffloadDaemon.RequestOffload` | src/daemon/daemon.cpp:856-964 | the reservation section is the specified step at a run that was free and fits a usable window; granted or reported blocked exactly if the epoch is live and the size is not zero; blocked only if no usable window has a run |
| `OffloadDaemonObject.OffloadDaemon.MarkD2HSubmitted` | src/daemon/daemon.cpp:966-992 | the submit handler is the specified step on the whole state |
| `OffloadDaemonObject.OffloadDaemon.ApplyD2HComplete` | src/daemon/daemon.cpp:994-1056 | one completion applied: accepted exactly when lease, epoch, tags and base slot agree and the run awaits its copy; then the run is pinned, published unless older, and enqueued for draining |
| `OffloadDaemonObject.OffloadDaemon.BatchComplete` | src/daemon/daemon.cpp:1410-1437 | a batch is the fold of single completions and counts exactly the accepted ones |
| `OffloadDaemonObject.OffloadDaemon.HandleReleaseLease` | src/daemon/daemon.cpp:1343-1388 | the release handler is the specified step: which states free the run, and when the location is given up |
| `OffloadDaemonObject.OffloadDaemon.TakeJob` | src/daemon/daemon.cpp:1523-1533 | a worker pops the oldest queued drain job |
| `OffloadDaemonObject.OffloadDaemon.SnapshotJob` | src/daemon/daemon.cpp:1535-1552 | the worker re-checks the run and remembers its tags before it unlocks |
| `OffloadDaemonObject.OffloadDaemon.DrainWorkerCommit` | src/daemon/daemon.cpp:1560-1584 | the commit after the unlocked copy: publish, free and forget, or put the run back on an IO failure |
| `OffloadDaemonObject.OffloadDaemon.PickOldest` | src/daemon/daemon.cpp:1464-1482 | a victim is found exactly if a lease has a pinned run, and no such run was touched before it |
| `OffloadDaemonObject.OffloadDaemon.ForceDrainBegin` | src/daemon/daemon.cpp:1463-1491 | the forced drain marks the oldest drainable run and remembers its tags; nothing changes if there is none |
| `OffloadDaemonObject.OffloadDaemon.ForceDrainCommit` | src/daemon/daemon.cpp:1494-1516 | the forced commit, without re-check, is the specified step |
| `OffloadDaemonObject.OffloadDaemon.InvalidateSession` | src/daemon/daemon.cpp:724-764 | ending a session: its leases are recovered in some order, then the late ring entries are applied |
| `OffloadDaemonObject.OffloadDaemon.RegisterRank` | src/daemon/daemon.cpp:718-838 | registration ends the rank's old session and every live session of the same process, then opens one under a new epoch |
| `DaemonInv.CoreComplete` | src/daemon/daemon.cpp:994-1056 | a completion keeps ownership: disjoint runs, tags, claims on draining runs, byte accounting |
| `DaemonInv.CoreForceCommit` | src/daemon/daemon.cpp:1496-1517 | a forced commit keeps ownership |
| `Durability.CoreStep` | src/daemon/daemon.cpp:718-1690 | every section and every IO step keeps: leases cover disjoint tagged runs, each draining run has one claimant, the gauge is exact |
| `Durability.DataStep` | src/daemon/daemon.cpp:994-1056 | every enabled step keeps contents: pinned runs, cold copies and copy buffers hold the bytes of their (tensor, version) |
| `Durability.SafeStep` | src/daemon/daemon.cpp:1343-1388 | an enabled step keeps a safe version safe exactly if it is not its owner giving up the named copy |
| `Durability.AcceptedIsSafe` | src/daemon/daemon.cpp:1018-1056 | an accepted completion is safe at once |
| `Durability.Durable` | src/daemon/daemon.cpp:994-1586 | durability over every run of enabled steps: from acceptance on, the tensor resolves to exactly those bytes or to a newer version, as long as its owner does not give the named copy up |
| `Durability.LeasesDisjoint` | src/daemon/daemon.cpp:907-947 | in every reachable state leases cover disjoint occupied runs that carry their tags |
| `Durability.CommitFindsItsRun` | src/daemon/daemon.cpp:1484-1584 | in every reachable state a thread that comes back from unlocked IO finds exactly the run it began with, claimed by nobody else |
| `Durability.UsedIsExact` | src/daemon/daemon.cpp:442-461 | in every reachable state the byte gauge is the granularity times the occupied slots, so it never underflows |
| `Durability.CopyKeepsIff` | src/daemon/daemon.cpp:966-992 | a GPU copy through any grant, past or present, keeps the invariant exactly if it does not hit someone's finished bytes with other bytes |
| `Durability.LateCopySpoils` | src/daemon/daemon.cpp:1656-1685 | a copy that arrives after its run was given away destroys the version that lives there now |
| `DaemonWitness.LateCopyRun` | src/daemon/daemon.cpp:1656-1685 | a run after which a timed-out rank's copy destroys the version that another rank has in the slot by then |
| `Fencing.RecoveryExact` | src/daemon/daemon.cpp:729-745 | recovery in any order frees exactly the runs of the named leases of the session that await a copy, and removes exactly those leases |
| `Fencing.InvalidateReclaims` | src/daemon/daemon.cpp:724-764 | ending a live session frees exactly its runs that still await a copy, removes exactly its leases, and leaves locations alone |
| `Fencing.FencedIsInert` | src/daemon/daemon.cpp:333-338 | no reservation request, submit, release or completion under a fenced (rank, epoch) changes anything, nor does a completion of one of its leases |
| `Fencing.FencedForever` | src/daemon/daemon.cpp:333-338 | a session that was valid and is no more stays fenced in every later state, as long as reservations commit under a valid epoch |
| `Fencing.LateReserveUnfences` | src/daemon/daemon.cpp:895-947 | a reservation that commits for a fenced session brings a lease back exactly if it has a free run |
| `DaemonWitness.LateReserveRun` | src/daemon/daemon.cpp:880-947 | a run in which a request passes its epoch check, finds no free run, drains another rank's by force, times out and is fenced meanwhile, and its reservation commits all the same |
| `Commute.CompletionsCommute` | src/daemon/daemon.cpp:1410-1437 | if no two acceptable completions of different leases are for one (tensor, version), any permutation of a batch, repetitions included, gives the same state up to the order of the drain queue, and the same accepted count |
| `Commute.BatchPublishesNewest` | src/daemon/daemon.cpp:350-369 | after a batch no accepted completion is newer than its tensor's location, and the location is the old one or that of an accepted completion |
| `Commute.AcceptedCountsLeases` | src/daemon/daemon.cpp:1410-1437 | the accepted count is the number of distinct leases the batch names acceptably |
| `Commute.SamePairLastWins` | src/daemon/daemon.cpp:350-369 | without that hypothesis it fails: two accepted completions for one (tensor, version) that get published do not commute |
| `Allocator.TryAllocInWindow` | src/daemon/daemon.cpp:381-397 | the skip-ahead scan returns exactly the run that naive first fit returns, or fails with it |
| `Allocator.AllocateSlots` | src/daemon/daemon.cpp:399-440 | succeeds exactly if some usable window has a run of the length; the run is the first fit of a usable window of the best tier that has one |
| `Allocator.HasRunIff` | src/daemon/daemon.cpp:381-397 | a window offers a run exactly if some start inside it is free for the whole length |
| `Allocator.DistinctKeysUsable` | src/daemon/daemon.cpp:399-440 | with distinct window keys every permitted window is usable |
| `Allocator.ShadowedWindowIsMissed` | src/daemon/daemon.cpp:399-440 | with a repeated key the earlier window can be missed although it has a run |
| `CompletionRing.RoundingTerminatesIff` | src/daemon/daemon.cpp:136-139 | the 32-bit doubling loop ends exactly for capacities up to 2^31 |
| `CompletionRing.RoundCapacity` | src/daemon/daemon.cpp:136-139 | for capacities up to 2^31 the loop yields the least power of two that is at least the request and at least 2 |
| `CompletionRing.RingBuffer.constructor` | src/daemon/daemon.cpp:199-210 | an empty ring of a power-of-two capacity, at any index |
| `CompletionRing.RingBuffer.Push` | src/common/completion_ring.h:60-68 | push appends to the queue, or refuses exactly when it is full |
| `CompletionRing.RingBuffer.Pop` | src/common/completion_ring.h:71-79 | pop removes the oldest entry, or refuses exactly when the ring is empty |
| `CompletionRing.StepRefines` | src/common/completion_ring.h:60-79 | each load, slot write and index store of either thread is a step of a bounded FIFO queue |
| `CompletionRing.RunIsFifo` | src/common/completion_ring.h:60-79 | over every interleaving and across index wrap: pending plus pushed is popped plus pending, in order |
| `CompletionRing.NothingLostOrReordered` | src/common/completion_ring.h:60-79 | the consumer has received exactly a prefix of what was published |
| `RestoreWait.EarlyExitIff` | src/agent/agent.cpp:511-517 | with the entry pending, the wait ends early exactly if a 64-bit wrap lies between the two indices |
| `RestoreWait.SameLapExact` | src/agent/agent.cpp:511-517 | without a wrap in between the exit test is exact |
| `RestoreWait.RestoreAfterCompletion` | src/agent/agent.cpp:896-911 | in every interleaving, when the handler of a restore that waited holds the mutex, the completion it waited for has been applied, unless the index was read across a 64-bit wrap |
| `RestoreWait.RestoreAfterCompletionFirstLap` | src/daemon/daemon.cpp:1720-1752 | in a session of at most 2^64 completions the guarantee has no exception |
| `RestoreWait.AnnouncedIsWaitedFor` | src/agent/agent.cpp:480-496 | a restore of a tensor announced through the ring never skips the wait |
| `CanonicalKey.SeparatorLostIff` | src/daemon/canonical.cpp:37-41 | a number is written in decimal with a colon below 10^19, and with a NUL in its place from there on |
| `CanonicalKey.KeyStringExact` | src/daemon/canonical.cpp:57-80 | two keys have one key string exactly if all 19 identity fields agree |
| `StoreInv.FinishCreateOk` | src/daemon/canonical.cpp:382-423 | a creation that finds its rank alive and its key free keeps the store invariant |
| `StoreInv.CommitOk` | src/daemon/canonical.cpp:428-533 | a commit keeps the store invariant |
| `StoreInv.DropHoldsOk` | src/daemon/canonical.cpp:576-637 | giving up holds keeps the store invariant |
| `CanonicalRuns.RunOk` | src/daemon/canonical.cpp:201-637 | in every reachable state: refcount is the number of holders, holders are alive, index and table are inverse, job and transfer counts are exact, promoted pointers name sealed manifests |
| `CanonicalRuns.HeldStep` | src/daemon/canonical_rollout.cpp:353-362 | a step leaves an object without holder and transfer exactly if it is a failed staging of the last hold |
| `StoreWitness.OrphanRun` | src/daemon/canonical_rollout.cpp:353-362 | a run that ends with an object nobody holds and nothing reads |
| `CanonicalRuns.NoOrphans` | src/daemon/canonical_rollout.cpp:379-392 | without such a staging failure no reachable object is an orphan |
| `CanonicalRuns.DeadCreatorIsFreed` | src/daemon/canonical.cpp:576-588 | a creator that dies takes its unfinished object and the key along |
| `CanonicalRuns.DeadCreatorFreesKey` | src/daemon/canonical.cpp:230-238 | another live rank of a registered job that then asks for the key, may create, and whose version is not sealed, is told to create it |
| `CanonicalRuns.OneObjectPerIdentity` | src/daemon/canonical.cpp:385-412 | in every reachable state two objects have one identity exactly if they are the same object |
| `CanonicalRuns.LookupExact` | src/daemon/canonical.cpp:230-231 | the index finds an object of the identity exactly if there is one |
| `CanonicalRuns.CreateKeepsIndexIff` | src/daemon/canonical.cpp:382-423 | a creation keeps index and table inverse exactly if its key is still free when it has the mutex again |
| `CanonicalRuns.CreateKeepsHoldersIff` | src/daemon/canonical.cpp:394-413 | it keeps holders and counts of every object in order exactly if its rank is still alive |
| `CanonicalRuns.CreateKeepsStoreIff` | src/daemon/canonical.cpp:382-423 | it keeps the whole invariant exactly if both hold |
| `StoreWitness.KeyTakenRun` | src/daemon/canonical.cpp:388-413 | a run in which two threads create one key, and the second creation breaks the store invariant |
| `StoreWitness.RankDeadRun` | src/daemon/canonical.cpp:388-413 | a run in which a rank dies while its creation waits, and the creation breaks the store invariant |
| `CanonicalRuns.ContentFrozen` | src/daemon/canonical.cpp:454-480 | a created object keeps key, size and hash until it is erased, and its id never comes back |
| `CanonicalRuns.ManifestStep` | src/daemon/canonical_rollout.cpp:56-66 | a sealed manifest stays as it is, or is erased by a drop of it or by the promotion of another version of its job and role |
| `CanonicalRuns.ManifestImmutable` | src/daemon/canonical_rollout.cpp:56-147 | over every run a sealed manifest does not change while it is there |
| `CanonicalRuns.ManifestOfMembers` | src/daemon/canonical_rollout.cpp:121-135 | the manifest depends on the members and their hashes and sizes only, not on the order of gathering |
| `CanonicalRuns.ManifestAccounts` | src/daemon/canonical_rollout.cpp:84-135 | in every reachable state a sealed manifest whose members are all present has their hash and total |
| `CanonicalRuns.PromotedIsSealed` | src/daemon/canonical_rollout.cpp:138-147 | a promoted pointer always names an existing sealed manifest |
| `CanonicalRuns.RetentionExact` | src/daemon/canonical_rollout.cpp:612-649 | with retention on, after a promotion the sealed versions are exactly the newest `keep`, the promoted one and those with a transfer in flight |
| `CanonicalRuns.ErasedExactly` | src/daemon/canonical_rollout.cpp:629-648 | retention erases an object exactly if its version is outdated and nothing reads it |
| `CanonicalRuns.SurvivorWholeIff` | src/daemon/canonical_rollout.cpp:629-648 | a surviving version loses no object exactly if it is not outdated or has no idle object |
| `StoreWitness.SurvivorLosesIdleObjects` | src/daemon/canonical_rollout.cpp:137-147 | a run in which a version stays sealed because one of its two tensors is exported, and loses the other, when the next version is promoted |
| `CanonicalTable.ObjectTable.ReleaseObject` | src/daemon/canonical.cpp:541-565 | refused exactly while a transfer is in flight; otherwise erases the object, its key and its place in the job count |
| `CanonicalTable.ObjectTable.MaybeFreeObject` | src/daemon/canonical.cpp:568-572 | erases exactly if nobody holds and nothing reads it |
| `CanonicalTable.ObjectTable.PurgeRank` | src/daemon/canonical.cpp:576-588 | the loops over the table drop exactly this rank's holds and free what nobody holds or reads |
| `CanonicalTable.ObjectTable.HandleReleaseCanonical` | src/daemon/canonical.cpp:595-637 | the release loop is the specified step, with the counts of objects released and freed |
| `CanonicalTable.ObjectTable.HandleEvict` | src/daemon/canonical.cpp:210-387 | the attach, wait, candidate or create decision and its effect are the specified ones |
| `CanonicalTable.ObjectTable.FinishCreation` | src/daemon/canonical.cpp:388-422 | the section after the reservation is the specified one |
| `CanonicalTable.ObjectTable.HandleCommit` | src/daemon/canonical.cpp:428-533 | the commit is the specified step; won exactly by a live creator whose bytes have a location, attached exactly if the object is valid and the hashes agree |
| `CanonicalTable.ObjectTable.BeginPull` | src/daemon/canonical_rollout.cpp:301-343 | granted exactly for a sealed member of a sealed manifest; it raises the export count |
| `CanonicalTable.ObjectTable.AbandonPull` | src/daemon/canonical_rollout.cpp:353-362 | the staging-failure exit lowers the count and frees nothing |
| `CanonicalTable.ObjectTable.EndPull` | src/daemon/canonical_rollout.cpp:379-392 | the regular exit lowers the count and may free |
| `CanonicalTable.ObjectTable.GrantRestore` | src/daemon/canonical_rollout.cpp:517-518 | a restore raises the restore count |
| `CanonicalTable.ObjectTable.ReleaseRestore` | src/daemon/canonical_rollout.cpp:530-545 | its release lowers the count and may free |
| `CanonicalTable.ObjectTable.HandleDropVersion` | src/daemon/canonical_rollout.cpp:554-607 | the drop loop erases exactly the idle objects of the version, its manifest and a pointer to it, and counts them |
| `CanonicalTable.ObjectTable.EnforceRetention` | src/daemon/canonical_rollout.cpp:612-649 | sorting, skipping the newest and the promoted, and the inner loops are the specified retention |
| `CanonicalTable.ObjectTable.HandleSeal` | src/daemon/canonical_rollout.cpp:41-161 | gathering, checking, sorting, freezing, publishing and promoting are the specified seal |
| `StoreLoops.Sort` | src/daemon/canonical_rollout.cpp:121-122 | sorting the gathered ids gives the ascending sequence of exactly that set |
| `RestoreHold.StepInv` | src/daemon/canonical_rollout.cpp:422-545 | every enabled section of both machines keeps the invariant that ties objects to runs |
| `RestoreHold.RestoreHeld` | src/daemon/canonical_rollout.cpp:450-527 | over every run of enabled steps: from the grant until its release the very run handed out is pinned, tagged with the object and full of its bytes, and the object is in the table |
| `RestoreHold.WarmCommitHoldsIff` | src/daemon/canonical_rollout.cpp:490-518 | a restore that read its object back holds it exactly if no section erased it meanwhile; it is granted either way |
| `RestoreHold.DropDuringReadBack` | src/daemon/canonical_rollout.cpp:490-518 | whenever a version is dropped while one of its idle objects is read back, the restore is granted and the object is absent |
| `HoldWitness.HoldLost` | src/daemon/canonical_rollout.cpp:455-518 | a run from the initial state: an object is created, filled, committed and drained, a restore reads it back, its version is dropped meanwhile, and the restore is granted on an absent object |
| `RestoreHold.PlainReleaseBreaksIff` | src/daemon/daemon.cpp:1343-1388 | a plain release that takes effect takes a held run away exactly if it names that run's lease |
| `RestoreHold.CommitBreaksIff` | src/daemon/canonical.cpp:501-512 | a candidate commit discards a held run exactly if it names that run's lease |
| `RestoreHold.SpareReleaseIff` | src/daemon/canonical_rollout.cpp:530-545 | an unmatched restore release leaves every hold counted exactly if there was a count to spare |
| `HoldGauge.GaugeExactIff` | src/daemon/canonical_rollout.cpp:488-502 | the byte gauge as written equals the occupied memory exactly if nothing is being read back and nothing was lost, and is never above it |
| `HoldGauge.NoDriftIff` | src/daemon/canonical_rollout.cpp:493-498 | nothing is lost exactly if no read-back has failed |
| `HoldWitness.GaugeDrifts` | src/daemon/canonical_rollout.cpp:488-498 | a run after which nothing is being read back and the gauge is below the occupied memory |
| `NvmeLayout.SegmentsCover` | src/daemon/daemon.cpp:1893-1903 | the stripe segments add up to the tensor |
| `NvmeLayout.StripeSegments` | src/daemon/daemon.cpp:1893-1903 | the loop computes equal shares with the rest on the last stripe |
| `NvmeLayout.RoundUpIs` | src/daemon/daemon.cpp:1936-1937 | the padding is the usual rounding to 4096 bytes |
| `NvmeBlocks.BlocksInRegion` | src/daemon/daemon.cpp:1939-1958 | with a block size of whole pages, the blocks of one chunk stay in its padded region, apart from each other |
| `NvmeRegions.ExecInv` | src/daemon/daemon.cpp:1935-1958 | under any interleaving of drains, padded writes stay in the regions their cursors reserved |
| `NvmeRegions.RecordKept` | src/daemon/daemon.cpp:1923-1965 | a finished drain's chunk list does not change until it is forgotten |
| `NvmeRegions.EntriesIntact` | src/daemon/daemon.cpp:1923-2012 | whatever other drains do, before and after, a finished drain reads back as its tensor until it is forgotten |
| `NvmeEngines.StripeFiles.WritePwrite` | src/daemon/daemon.cpp:1905-1969 | the sequential write: chunk list, cursors, and files changed in exactly the reserved regions, which hold the padded segments |
| `NvmeEngines.StripeFiles.ReadPread` | src/daemon/daemon.cpp:1971-2019 | the sequential read reports success whatever the files hold; each byte of memory is its file's byte or, where the file ends, what the bounce buffer had left from the blocks before; memory is the concatenation of the chunks exactly if no file is too short |
| `NvmeEngines.DrainedReads` | src/daemon/daemon.cpp:1983-2012 | what a write left behind reads back as the tensor |
| `NvmeWindow.CookieExactIff` | src/daemon/daemon.cpp:2120-2132 | the completion cookie gives the buffer back, and the block exactly below 2^32 |
| `NvmeWindow.SlotsDistinctIff` | src/daemon/daemon.cpp:2098-2119 | every buffer number has a vector slot of its own exactly up to 64 buffers |
| `NvmeWindow.FirstPassIntactIff` | src/daemon/daemon.cpp:2107-2127 | when the first pass reaches the kernel, every request finds the vector made for it exactly if there are at most 64 buffers or at most 64 blocks |
| `NvmeWindow.SubmitOk` | src/daemon/daemon.cpp:2109-2126 | submission keeps: one buffer, one vector and one block per request, every block handed out landed or in flight |
| `NvmeWindow.RetireOk` | src/daemon/daemon.cpp:2128-2141 | completion keeps it, in any order, once the pipe is filled |
| `NvmeWindow.AllLanded` | src/daemon/daemon.cpp:2107-2142 | when as many blocks have landed as there are, nothing is in flight and every block is among them |
| `NvmeUring.WriteUring` | src/daemon/daemon.cpp:2030-2149 | with at most 64 buffers or at most 64 blocks, and cookies that name their blocks, the asynchronous write meets the contract of the sequential one, for any order of completions |
| `NvmeUringRead.ReadUring` | src/daemon/daemon.cpp:2151-2253 | under the same condition, the asynchronous read succeeds exactly if every chunk is in its file, and then delivers them in order |
| `NvmeUringRead.StoreAndLoad` | src/daemon/daemon.cpp:1879-1889 | under the same condition, either write followed by either read returns the tensor |
| `WireCodec.Writer.Record` | src/common/wire.h:27-48 | the writer appends exactly the encoding, and refuses exactly a string of 2^32 bytes or more |
| `WireCodec.Reader.Record` | src/common/wire.h:51-75 | the reader gives exactly what the decoding function gives, and leaves the same rest |
| `WireCodec.Transfer` | src/common/wire.h:27-75 | a message is sent exactly if its strings fit, and then comes back exactly if its counts fit too |
| `WireLaws.RoundTripIff` | src/common/wire.cpp:85-115 | for every list of typed fields, decoding undoes encoding exactly if every count fits 32 bits, whatever follows |
| `WireLaws.PrefixRejected` | src/common/wire.h:51-75 | every strict prefix of the encoding of a message whose counts fit is rejected |
| `WireLaws.EncodingInjective` | src/common/wire_v2.cpp:26-67 | two messages of one kind whose counts fit never share an encoding |
| `WireLaws.AllMeasured` | src/common/wire.h:51-75 | any bytes that decode give a well-typed message whose encoding has the length that was read |
| `WireCatalog.EveryMessage` | src/common/wire.cpp:70-413 | round trip and prefix rejection for the field list of each of the 48 messages |
| `WireMessages.ManifestBack` | src/common/wire_v2.cpp:276-305 | a manifest reply whose texts and count fit comes back with every entry and key field, signed expert included |
| `WireMessages.ManifestPrefix` | src/common/wire_v2.cpp:289-305 | a cut-off manifest reply is refused wherever it is cut |
| `WireMessages.StatsBackIff` | src/common/wire.cpp:383-398 | with at least as many values as names, the statistics reply loses exactly the values beyond the names, so it comes back exactly if the numbers agree |
| `WireMessages.FrameBack` | src/common/wire.cpp:40-64 | a frame's header is twelve bytes and gives opcode, flags and length back; the body follows |
| `WireStream.FrameRead` | python_api/state_spectre/_wire.py:72-94 | the next frame is read back and the stream left at the one after it |
| `WireStream.Socket.RecvExact` | python_api/state_spectre/_wire.py:77-84 | exactly n bytes however they arrive, or an error exactly if the stream ends first |
| `WireStream.Socket.RecvFrame` | python_api/state_spectre/_wire.py:87-94 | the frame read does not depend on how the stream is cut into pieces |
| `PyWire.Utf8Injective` | python_api/state_spectre/_wire.py:42-45 | no two texts have the same UTF-8 bytes |
| `PyWire.JobKeyBack` | python_api/state_spectre/_wire.py:98-111 | Python reads back the job key it wrote: the name as it was given, the numbers modulo their width |
| `PyWire.AllAgree` | python_api/state_spectre/_wire.py:48-69 | on any bytes at all the Python decoder gives what the C++ decoder gives, and fails exactly if that fails or a string is not UTF-8 |
| `PyWire.PyReadsCpp` | python_api/state_spectre/_wire.py:169-182 | Python reads what C++ wrote exactly if every string is UTF-8, for messages whose counts fit |
| `PyWire.CppReadsPy` | python_api/state_spectre/_wire.py:152-166 | the daemon reads the Python manifest request with its numbers reduced to their widths, negative expert included; the builder fails exactly if the expert is no 32-bit value |
| `PyWire.CoordExactIff` | python_api/state_spectre/_wire.py:38-40 | each of the four coordinates, the role and the version arrives as given exactly if it fits its width; the expert always does |
| `PyWire.LatestReadsPy` | python_api/state_spectre/_wire.py:138-142 | the daemon reads the request for the latest version, its numbers reduced to their widths |
| `PyWire.PullReadsPy` | python_api/state_spectre/_wire.py:186-195 | the daemon reads the pull request, its numbers reduced to their widths |
| `ConfigText.Tokenize` | src/daemon/config.cpp:72-110 | the loop over characters gives exactly the indented lines, or the tab error |
| `ConfigText.TokensBack` | src/daemon/config.cpp:72-110 | printed lines are read back |
| `ConfigTree.NodeTail` | src/daemon/config.cpp:191-211 | the lines after a node are as they were, although lines inside it are rewritten |
| `ConfigParser.ParseNodeAt` | src/daemon/config.cpp:191-211 | terminates, agrees with the grammar, and on success the index has strictly advanced |
| `ConfigParser.ParseMapAt` | src/daemon/config.cpp:115-152 | the mapping loop agrees with the grammar and advances |
| `ConfigParser.ParseSeqAt` | src/daemon/config.cpp:154-189 | the list loop agrees with the grammar and advances |
| `ConfigParser.ParseItemAt` | src/daemon/config.cpp:160-186 | an item rewritten in place and parsed again at the same index terminates, because its text is shorter |
| `ConfigParser.LoadFile` | src/daemon/config.cpp:381-394 | from the text to the tree, or the error |
| `ConfigRoundTrip.NodeBack` | src/daemon/config.cpp:115-211 | every legal document, rendered at any depth before any shallower line, parses to what it means |
| `ConfigRoundTrip.FileBack` | src/daemon/config.cpp:381-394 | every legal mapping written to a file is read back as what it means, the last of repeated keys winning |
| `ConfigArenas.NumberBack` | src/daemon/config.cpp:216-230 | a decimal is read back exactly below 2^63 and refused from there on |
| `ConfigArenas.SizedExactIff` | src/daemon/config.cpp:461-464 | a size in GiB is exact exactly below 2^34 |
| `ConfigArenas.ReadLayout` | src/daemon/config.cpp:432-499 | the loops over arenas and windows give the specified layout |
| `ConfigArenas.StartUp` | src/daemon/daemon.cpp:217-275 | from text to filled table: refused exactly if unreadable or not accepted; otherwise the table is the plan, or it would overrun |
| `ConfigArenas.StartIsGood` | src/daemon/daemon.cpp:217-275 | every text whose sums do not wrap and whose slots can be numbered gives slots in their arenas, apart, and windows the allocator can scan |
| `SlotPlan.Validate` | src/daemon/config.cpp:681-700 | accepts exactly the configurations with a positive granularity, an arena, positive sizes and wrapped sums that fit |
| `SlotPlan.CountSlots` | src/daemon/daemon.cpp:127-130 | the table size is the number of whole granules modulo 2^32 |
| `SlotPlan.BuildSlotPlan` | src/daemon/daemon.cpp:217-275 | the carving loops fill exactly the plan and the windows |
| `SlotPlan.PlanGoodIff` | src/daemon/daemon.cpp:127-148 | the plan is in the arenas, without overlap and in the table exactly if the windows' granules fit their arenas and all fit the table |
| `SlotPlan.AcceptedIsGood` | src/daemon/config.cpp:681-700 | accepted, without wrap and with fewer than 2^32 granules: the plan is good |
| `SlotPlan.AcceptedInArenaIff` | src/daemon/config.cpp:686-699 | of the accepted configurations whose arenas stay a few granules below 2^64 bytes, exactly those whose sums do not wrap have all slots in their arenas |
| `SlotPlan.InArenaIff` | src/daemon/daemon.cpp:221-267 | for any configuration: all slots are in their arenas exactly if the whole granules of each arena's windows fit it |
| `SlotPlan.WrapExample` | src/daemon/config.cpp:686-699 | an accepted configuration whose plan leaves its arena |
| `SlotPlan.TableExample` | src/daemon/daemon.cpp:127-130 | a configuration of 2^52 bytes that validation accepts and whose slots the 32-bit count loses; a daemon counts them only after it mapped the arena, which a 47-bit address space refuses |
| `SlotPlan.WindowsCover` | src/daemon/daemon.cpp:225-262 | the windows hold the slot numbers in order, each once |
| `SlotPlan.WindowsScannable` | src/daemon/daemon.cpp:381-397 | every window is one the allocator can scan |

## Left out

- NvmeUring.WriteUring: for more than 64 buffers and blocks at once, or more than 2^32 blocks, what reaches the disk is not modelled beyond `NvmeWindow.FirstPassIntactIff` and `NvmeWindow.CookieExactIff`; rings of more than 32768 requests, which the kernel refuses, are left out.
- NvmeUringRead.ReadUring: the same.
- NvmeUringRead.StoreAndLoad: the same.
- NvmeEngines.StripeFiles.WritePwrite: system calls and allocations succeed; a block is whole pages, as the setting in MiB makes it.
- NvmeEngines.StripeFiles.ReadPread: opening and reading do not fail; only short files are modelled.
- Commute.CompletionsCommute: for completions of different leases on different (tensor, version) pairs; `Commute.SamePairLastWins` shows why.
- SlotPlan.AcceptedInArenaIff: leaves out arenas within a few granules of 2^64 bytes, where wrapped sums can still fit; `SlotPlan.InArenaIff` has the exact condition for all.
- OffloadDaemonObject.OffloadDaemon.BatchComplete: a batch of D2H events; H2D events are left out.
- WireMessages.StatsBackIff: with fewer values than names the encoder reads past the end of its list; that is not modelled.
- OffloadDaemonObject.OffloadDaemon.PickOldest: time stamps are unbounded numbers and there are no prefetch leases; canonical objects are skipped in the `HoldModel` machine only.
- OffloadDaemonObject.OffloadDaemon.RequestOffload: one attempt; the up to 64 forced drains between attempts are separate steps.
- CanonicalTable.ObjectTable.BeginPull: the in-flight export quota is not modelled.
- CanonicalTable.ObjectTable.HandleEvict: the pinned-bytes quota is not modelled, and the memory-pressure rule for candidates is an input.
- Requests to a daemon whose canonical store, manifests or export are switched off.
- Prefetch, read-back for prefetch, and H2D completions of plain tensors.
- CUDA, sockets, NUMA placement, thread start and stop, logging, and all metrics but the pinned-bytes gauge.
- The senders of exported tensors, the bytes staged for them, and the manifest query with its filter.
- Wrap-around of lease, object and epoch counters, and truncation of a lease's slot count to 32 bits.
- What happens after a restore was granted on an erased object: the code then writes through a dangling reference.
- The lease tag of a run that was read back: the model gives it a fresh number, the code leaves it unset. No lease names such a run, so neither drain path takes it.
- The Python codec is modelled on values: its byte array and read position are not mutable state here.
- Configuration sections other than `arenas`, floating-point settings, line numbers in error messages.
- The rollout client and the benchmark scripts: they would only add easy members.
