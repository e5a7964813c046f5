# qsolog: store, projector, journal and runtime, verified

This project models the contest logger qsolog and proves what it promises: an in-memory QSO
store with undo and redo, a projector that keeps contest results up to date incrementally, an
append-only journal with snapshots, and a single-writer runtime with a persistence worker.

## How it is built

Each core file appears twice. A layer of functions on values says what an operation does
(`StoreModel`, `Projection`, `Journal`, `RuntimeModel`); classes with the source's own fields
(`Store.QsoStore`, `Projector.Projector`, `Sqlite.SqliteOpSink`, `Runtime.LoopAndWorker`) update
them in place, with the source's loops, and are proved to compute those functions. The theorems
are about the functions, so they hold of the objects.

- `Wrappers`, `Qso`, `Operation`: results, records, patches, ops.
- `StoreModel`, `Indices`, `Store`: the store, its sorted secondary indices, the object.
- `History`, `Commands`, `UndoRedo`, `Rejection`, `RoundTrips`: runs of commands, what each does to
  records and when it fails, compensating ops, rollback, and exactly when undo and redo restore a view.
- `Journal`, `Sqlite`, `Loading`: tables, replay, snapshots, loading and its exact conditions.
- `Engine`, `Projection`, `ProjectionProof`, `ReconcileProof`, `ProjectionTheorems`,
  `ProjectionLimits`, `ToyScoring`, `Projector`, `ProjectedLog`: contest engines and their laws, the
  incremental algorithm, why it is right, for which engines, what the toy contest scores, the object,
  store and projector driven together.
- `RuntimeModel`, `Pipeline`, `RuntimeProof`: loop and worker as a step system, the durability
  pipeline, the invariant.
- `RuntimeTheorems`, `RuntimeAcks`, `RuntimeAnswers`, `RuntimeBounds`, `RuntimeHealth`,
  `RuntimeProgress`, `RuntimeRecovery`: crash consistency and healing, durable acks, what clients are
  told, bounds and intervals, health, the end of every wait, restarts that fail.
- `Runtime`, `RuntimeRuns`: the objects, and whole runs of them.

A store is `Valid` when `pos` inverts `order` and both indices are sorted, complete and free of
empty buckets; it says nothing about counters, so snapshot load and rollback need no precondition
on them. In the step system every interleaving is a list of actions. `Restart` is a crash followed
by an attempt to reopen the tables; where they do not load, the runtime stays down. Taking a message,
appending, writing a snapshot and compacting are separate steps of the worker, with the loop free to
move in between.

An audit trail beside the system says what was accepted and lost since the newest snapshot written,
or since the start, and from which view; what was accepted before that snapshot is kept as settled.
The answers given to clients, the numbers announced and the batches landed are listed since the start.

## Where the code does less than it seems to promise

- Undo and redo of an insert are exact only for drafts that are not already void
  (`UndoRedo.InsertRoundTripsIffNotVoid`); for runs, `RoundTrips.RoundTripsIffFlagsTrue` says exactly
  when they restore the view.
- Rolling back drops a redo stack that the mutation had cleared, and loses the popped entry of a
  rejected undo or redo; a second rejected undo can then write a wrong void flag
  (`Rejection.RejectionLeavesNoTrace`, `Rejection.TwoRejectedUndosLeaveATrace`;
  `Rejection.RejectionRestoresViewIff` says exactly when).
- Incremental results equal a full recompute whatever an engine evaluates if and only if sharing a
  key is transitive (`ProjectionLimits.AlwaysFullIffTransitive`); a single engine without that is
  right if its evaluation reveals the counts it sees.
- README.md:57 says operations are never dropped silently. A failed append drops its batch. It
  leaves a notice (`RuntimeProof.FlushLandsOrLoses`), but in durable mode the mutation can still be
  acked; `RuntimeAcks.DurableAckIsTrueIff` says exactly when. A checkpoint heals the tables
  (`RuntimeTheorems.CheckpointHeals`), not the health of the loop
  (`RuntimeHealth.CheckpointHealsTablesNotLoop`); `RuntimeHealth.ServesAgainIffNotStuck` says exactly
  when the loop comes back.
- A dropped batch followed by one that lands can leave a journal that does not load, so that
  nothing at all can be reopened (`RuntimeRecovery.DroppedInsertBricksJournal`);
  `Loading.LoadsIffFitting` says exactly when.
- A patch of a missing id uses up a sequence number, so a replayed store may be numbered lower
  than the live one, by exactly the misses since the last success
  (`Loading.ReplayedNumberLagsByMisses`).

## Model

| member | source | states |
|---|---|---|
| `Qso.QsoPatch.ApplyTo` | src/qso.rs:136-173 | field by field, what the patch sets is set and what it leaves alone, the id included, stays |
| `Qso.InverseUndoesPatch` | src/qso.rs:115-173 | the captured inverse restores the record, and capturing again on the way back recovers the original patch |
| `Indices.IndexedMeansScan` | src/core/store.rs:439-525 | sorted, complete, non-empty buckets are exactly the order-filtered scans, in both directions |
| `Indices.SearchByPos` | src/core/store.rs:487-495 | the binary search finds the place that separates smaller from larger positions |
| `Indices.InsertIdOrdered` | src/core/store.rs:487-495 | the re-keyed id is added once and the bucket stays strictly sorted by insertion position |
| `Indices.DropKeepsIndexed` | src/core/store.rs:450-463 | dropping an id from its bucket, and the bucket when it empties, keeps the whole index right for the remaining ids |
| `Store.QsoStore.IndicesMatchScan` | src/core/store.rs:498-525 | in every valid store both indices equal a scan of the canonical order, so the debug assertion cannot fire |
| `Store.IndicesAreDetermined` | src/core/store.rs:47-58 | positions and both indices are functions of records and order: restoring the view restores them |
| `Store.QsoStore.FromSnapshot` | src/core/store.rs:80-98 | any snapshot is loaded field by field; a well-formed one gives consistent positions and indices |
| `Store.QsoStore.ExportSnapshot` | src/core/store.rs:101-114 | the snapshot lists the records in canonical order with both counters |
| `Store.QsoStore.Insert` | src/core/store.rs:117-141 | in place, the modelled insertion with its error path, indices consistent afterwards |
| `Store.QsoStore.Patch` | src/core/store.rs:144-150 | in place, the modelled patch; a missing id fails but still uses up a sequence number |
| `Store.QsoStore.Void` | src/core/store.rs:153-165 | in place, the modelled toggle; a missing id changes nothing |
| `Store.QsoStore.Undo` | src/core/store.rs:168-174 | in place, one compensating op moved from the undo to the redo stack |
| `Store.QsoStore.Redo` | src/core/store.rs:177-183 | in place, one compensating op moved from the redo to the undo stack |
| `Store.QsoStore.ApplyReplayedOp` | src/core/store.rs:188-205 | in place, the modelled replay step: same view change, next number raised, stacks cleared, errors passed on |
| `Store.QsoStore.ByCall` | src/core/store.rs:233-240 | the answer is what a scan of all records in insertion order would give |
| `Store.QsoStore.RollbackMutation` | src/core/store.rs:287-304 | in place, the modelled rollback, indices and shifted positions consistent afterwards |
| `Store.QsoStore.ApplyInsertWithSeq` | src/core/store.rs:319-346 | appends record, order, position and both index entries, or fails on an id already present |
| `Store.QsoStore.ApplyPatchWithSeq` | src/core/store.rs:353-404 | rewrites the record, moves its id between buckets, and reports the captured inverse |
| `Store.QsoStore.ApplyVoidWithSeq` | src/core/store.rs:411-437 | sets the flag opposite to the op's belief and reports the inverse |
| `Store.QsoStore.UpdateCallIndex` | src/core/store.rs:465-474 | after a call change the call index is right for the new keys |
| `Store.QsoStore.UpdateContestIndex` | src/core/store.rs:476-485 | after a contest change the contest index is right for the new keys |
| `Store.QsoStore.RollbackInsert` | src/core/store.rs:537-548 | removes the record wherever it stands, closes the gap in the order and renumbers the positions behind it |
| `Store.QsoStore.RollbackPatch` | src/core/store.rs:550-576 | writes the previous values back and keeps both indices consistent |
| `Store.QsoStore.RollbackVoid` | src/core/store.rs:578-585 | writes the op's remembered flag back |
| `Store.RemovalIsWithout` | src/core/store.rs:541-542 | removing by position from a list without repeats removes that id and nothing else |
| `Commands.ApplyIsExact` | src/core/store.rs:319-437 | an op applies unless it inserts an id that is there or targets one that is not, with that error; then it files one record at the end, rewrites one record's set fields, or sets one void flag, and nothing else |
| `Commands.InsertFilesDraft` | src/core/store.rs:117-141 | insert never fails: the draft, field by field, is filed under the next id at the end of the order, and undo is ready for it |
| `Commands.PatchRewritesSetFields` | src/core/store.rs:144-150 | patch fails exactly on a missing id, and then only takes a number; else one record changes in exactly the set fields, and the emitted op says how to get back |
| `Commands.VoidFlipsFlag` | src/core/store.rs:153-165 | void fails exactly on a missing id, and then changes nothing; else one record changes in exactly its void flag |
| `Commands.UndoAppliesTop` | src/core/store.rs:168-174 | undo fails exactly on an empty stack, and then changes nothing; else the top entry takes effect and leaves the stack |
| `Commands.RedoAppliesTop` | src/core/store.rs:177-183 | redo likewise |
| `Commands.ReplayIsExact` | src/core/store.rs:188-205 | replaying an op has its effect, raises the next number above it and clears both stacks, or fails for one of the two reasons and changes nothing |
| `Commands.RunFailsExactly` | src/core/store.rs:117-183 | after every run from a fresh or loaded store each command fails for exactly these reasons |
| `History.ExecIsOneOp` | src/core/store.rs:117-183 | a successful mutation is one application of the op it emits under the next number; a failed one leaves the view alone |
| `History.OrderIsInsertionOrder` | README.md:25-26 | over every run ids are handed out one by one and the order never changes except by appending |
| `History.ExecAppendsToOrder` | src/core/store.rs:319-346 | no command reorders or removes; an insert from a reachable store always succeeds |
| `History.VoidToggles` | src/core/store.rs:152-165 | void flips one flag, and twice restores the view |
| `History.RunIsFold` | src/core/store.rs:116-183 | folding the ops a run emits reproduces its view |
| `History.RunNumbersIncrease` | src/core/store.rs:527-535 | sequence numbers of a run increase strictly within the range it took |
| `UndoRedo.ExactRoundTrip` | src/core/store.rs:306-437 | an op whose belief is true, and its inverse, cancel out and reproduce each other |
| `UndoRedo.ExecKeepsCoherent` | src/core/store.rs:117-183 | every command with a non-void draft keeps each stack entry exact at the view where it becomes top |
| `UndoRedo.RunKeepsCoherent` | src/core/store.rs:117-183 | so do whole runs, from any coherent state |
| `UndoRedo.UndoRedoRoundTrip` | tests/property_invariants.rs:130-147 | k undos and k redos all succeed and restore view and both stacks, for every k up to the stack depth |
| `UndoRedo.EveryRunRoundTrips` | tests/property_invariants.rs:68-149 | the same after every run from a fresh or loaded store |
| `UndoRedo.InsertRoundTripsIffNotVoid` | src/core/store.rs:341-344 | one undo and redo of an insert restores the view if and only if the draft was not void |
| `RoundTrips.FlagsComeBackIff` | src/core/store.rs:306-437 | walking k filed entries down and back restores everything but void flags, and each flag if and only if the topmost entry that writes it is not a stale void |
| `RoundTrips.RoundTripsIffFlagsTrue` | tests/property_invariants.rs:130-147 | after any run, void drafts included, k undos and k redos succeed for every k up to the stack depth, and restore the view if and only if no flag is remembered wrongly in that sense |
| `RoundTrips.OneStepRoundTripsIff` | src/core/store.rs:168-183 | one undo and redo restores the view if and only if the top entry is not a stale void |
| `UndoRedo.UndoingARunVoidsItsInserts` | src/core/store.rs:168-174 | undoing n mutations gives back every earlier record as it was and leaves later inserts in place but void |
| `Rejection.RejectionRestoresViewIff` | src/core/store.rs:287-304 | a rejected command restores the view if and only if it was not the undo or redo of a void entry that remembers the flag wrongly; rollback always succeeds and restores the next number |
| `Rejection.RejectionLeavesNoTrace` | src/core/store.rs:277-304 | a mutation followed by rollback with the checkpoint taken before it: a rejected insert, patch or void restores everything but the redo stack, so everything if and only if that was empty |
| `Rejection.RejectedUndoLosesItsEntry` | src/core/store.rs:168-174 | from a coherent state a rejected undo restores all but the popped entry |
| `Rejection.RejectedRedoLosesItsEntry` | src/core/store.rs:177-183 | likewise for a rejected redo |
| `Rejection.TwoRejectedUndosLeaveATrace` | src/core/store.rs:578-585 | a concrete run in which the second rejected undo leaves a record un-voided |
| `Journal.InsertRowKeepsKeyOrder` | src/persist/sqlite.rs:164-189 | a row goes to its primary-key place, and is refused if and only if the key exists |
| `Journal.AppendAbove` | src/persist/sqlite.rs:164-189 | rows numbered above the table are appended at its end |
| `Journal.ReplayIsFold` | src/core/store.rs:188-205 | replay is the fold of the ops over the view, succeeds when that does, and raises the next number above each |
| `Journal.ExportIsFaithful` | src/core/store.rs:101-114 | an export is the order, the record of each listed id in that order, and both counters |
| `Journal.SnapshotFilesRecords` | src/core/store.rs:80-98 | a well-formed snapshot loads with each listed record under its id, both counters, and nothing else |
| `Journal.SnapshotRoundTrip` | src/core/store.rs:80-114 | loading an exported snapshot gives back view and counters with empty stacks |
| `Journal.LoadIsFold` | src/persist/sqlite.rs:59-72 | loading is the fold of the tail events over the newest snapshot, or over an empty store |
| `Journal.LoadStartsAboveEvents` | src/persist/sqlite.rs:59-72 | a loaded store numbers its next op above every persisted row |
| `Journal.LoadAfterAppend` | src/persist/sqlite.rs:59-101 | appended ops extend what is loaded by exactly those ops |
| `Journal.LoadAfterSnapshot` | src/persist/sqlite.rs:104-120 | once a snapshot covers all rows, loading gives the snapshot's store whatever the rows were |
| `Journal.LoadAfterCompaction` | src/persist/sqlite.rs:123-128 | compaction up to the newest snapshot's number does not change what is loaded |
| `Journal.SnapshotPlusTailIsFullReplay` | tests/sqlite_replay.rs:94-140 | for any history and cut, snapshot plus tail loads the same view as full replay, compacted or not |
| `Journal.SnapshotDuringRun` | tests/sqlite_replay.rs:94-140 | the same for a run interrupted by a checkpoint |
| `Journal.ReplayIsFaithful` | tests/sqlite_replay.rs:27-61 | the journal of any run loads without error to the live view, although undone inserts were journaled as voids |
| `Loading.ReplayedNumberLagsByMisses` | src/core/store.rs:349-351 | the replayed store is numbered lower than the live one by exactly the number of patches of missing ids since the last success, so the same if and only if there were none |
| `Loading.MissedPatchTakesNumber` | src/core/store.rs:349-351 | a concrete run, an insert and a patch of a missing id, whose journal loads one number behind |
| `Loading.FoldSucceedsIffFitting` | src/core/store.rs:188-205 | a list of ops replays if and only if no insert repeats an id and every patch or void targets an id held by then |
| `Loading.LoadsIffFitting` | src/persist/sqlite.rs:59-72 | the tables load if and only if the events after the newest snapshot fit in that sense |
| `Sqlite.SqliteOpSink.AppendOps` | src/persist/sqlite.rs:164-189 | all rows go in or none, and the number of the last is returned |
| `Sqlite.SqliteOpSink.LoadEventsAfter` | src/persist/sqlite.rs:75-101 | the rows numbered strictly above the bound, in key order |
| `Sqlite.SqliteOpSink.WriteSnapshot` | src/persist/sqlite.rs:104-120 | one more snapshot row, nothing else changed |
| `Sqlite.SqliteOpSink.CompactThrough` | src/persist/sqlite.rs:123-128 | removes the rows up to the bound and counts them |
| `Sqlite.SqliteOpSink.LatestSeq` | src/persist/sqlite.rs:131-137 | the number of some row that no row is above, or zero for an empty table |
| `Sqlite.SqliteOpSink.LoadStore` | src/persist/sqlite.rs:59-72 | a fresh, consistent store in exactly the loaded state, or the replay error |
| `Engine.InvalidationIsExact` | tests/engine_incremental.rs:97-117 | a key is invalidated if and only if it comes, goes, or stays with a different evaluation |
| `Engine.ToyIsRooted` | tests/engine_incremental.rs:38-66 | in the repository's toy engine equal dupe keys imply equal mult keys, so it satisfies the rooted-key law |
| `Engine.SerialNumbersIsRevealing` | src/engine/traits.rs:62-86 | an engine that reports what it sees satisfies the count-revealing law with freely overlapping keys |
| `Engine.RootedIsTransitive` | src/engine/traits.rs:62-86 | a designated root key makes sharing transitive |
| `Engine.TransitiveWithoutRoot` | src/engine/traits.rs:62-86 | sharing can be transitive without any root key |
| `Engine.LawsAreIndependent` | src/engine/traits.rs:62-86 | the toy engine shares transitively and does not reveal; the reporting engine reveals and does not share transitively |
| `Projection.NotYetImpactedShrinks` | src/engine/projector.rs:103-122 | for every engine, a round that goes on shrinks the set of known ids not yet impacted, so the loop ends |
| `ProjectionProof.RecomputeIsProjection` | tests/engine_incremental.rs:136-153 | the full recompute gives each live record the value for the counts of the live records before it, and nothing else |
| `ProjectionProof.PassIsPassed` | src/engine/projector.rs:127-178 | one pass leaves the others alone; a re-applied record sees impacted records before it and non-impacted ones wherever they stand |
| `ReconcileProof.InvStep` | src/engine/projector.rs:103-122 | the loop invariant: an impacted record is as it was, or everything sharing a key with it is impacted too |
| `ReconcileProof.RevealedCount` | src/engine/projector.rs:103-122 | under the revealing law an unchanged record saw the right count for every key it shares with a non-impacted one |
| `ReconcileProof.ExitIsRight` | src/engine/projector.rs:118-124 | when the impacted set stops growing the results are the full recompute |
| `ProjectionTheorems.TransitiveStops` | src/engine/projector.rs:103-122 | with transitive sharing the second pass never grows the impacted set |
| `ProjectionTheorems.IncrementalIsFull` | src/engine/projector.rs:51-125 | for one op, with transitive sharing or revealing evaluations, incremental equals full; with transitive sharing within two passes |
| `ProjectionTheorems.ProjectionTracksEveryRun` | tests/engine_incremental.rs:237-291 | the same for a fresh projector over every run of insert, patch, void, undo and redo from a store with nothing live, failing commands included |
| `ProjectionTheorems.ToyProjectionTracksEveryRun` | tests/engine_incremental.rs:237-291 | instantiated with the toy engine |
| `ToyScoring.MultKeyIsMultiplier` | tests/engine_incremental.rs:45-46 | two records have the same multiplier key if and only if they are on the same band and their calls begin alike, an underscore standing for no call |
| `ToyScoring.ToyScoresTheLog` | tests/engine_incremental.rs:38-66 | after every run, in terms of records alone: a live record is a dupe if and only if an earlier live one has the same call, band and mode; it is a new multiplier if and only if no earlier live one on its band begins alike; a dupe scores 0 and any other 1 |
| `ProjectionLimits.ChainFails` | src/engine/projector.rs:103-122 | wherever sharing leads from r to s to t but not from r to t, voiding r leaves a wrong result for s under an evaluation that only asks whether a key was seen |
| `ProjectionLimits.AlwaysFullIffTransitive` | src/engine/projector.rs:51-125 | incremental equals full for every evaluation, op and view if and only if sharing a key is transitive among different live records |
| `ProjectionLimits.EveryRunFullIffTransitive` | tests/engine_incremental.rs:237-291 | for keys that do not depend on ids, the same condition is exact for runs from an empty store |
| `ProjectionLimits.RootedIsAlwaysFull` | src/engine/projector.rs:51-125 | an engine with a root key always has incremental equal full |
| `Projector.CachesAfterApply` | src/engine/projector.rs:174-178 | counts and dependency index stay exact when a record is applied |
| `Projector.CachesAfterRetract` | src/engine/projector.rs:156-159 | a retracted record's keys are all counted, so the saturating decrement never saturates, and the caches stay exact with no zero and no empty set |
| `Projector.RebuiltIsOldIff` | src/engine/projector.rs:56-72 | the record rebuilt from the op is the one from before it, if and only if the op is not a void with a stale belief |
| `Projector.Projector.AddDepLinks` | src/engine/projector.rs:212-216 | links the id under every key |
| `Projector.Projector.RemoveDepLinks` | src/engine/projector.rs:218-227 | unlinks the id and removes emptied keys |
| `Projector.Projector.RetractImpacted` | src/engine/projector.rs:134-160 | takes out exactly the applied impacted ids; each retract receives the record of its apply when the projector was told the truth |
| `Projector.Projector.ReapplyImpacted` | src/engine/projector.rs:162-178 | re-applies exactly the live impacted ids in canonical order |
| `Projector.Projector.CollectChangedKeys` | src/engine/projector.rs:180-209 | the union over impacted ids of what old and new result say changed, in whatever order they are visited |
| `Projector.Projector.RecomputeImpacted` | src/engine/projector.rs:127-210 | one pass in place with its changed keys |
| `Projector.Projector.IncrementalReconcile` | src/engine/projector.rs:77-125 | the loop in place reaches the modelled fixpoint, and retract pairing carries over to later passes |
| `Projector.Projector.ApplyStoredOp` | src/engine/projector.rs:51-75 | one op in place; a patch or void of an unknown id is an error that changes nothing |
| `ProjectedLog.FullRecomputeProjection` | tests/engine_incremental.rs:136-153 | the engine run over all non-void records from a fresh state gives the reference projection |
| `ProjectedLog.EmittedOpIsPaired` | src/engine/projector.rs:56-72 | an emitted op that is not stale tells the projector the truth about the old record |
| `ProjectedLog.RunActions` | tests/engine_incremental.rs:237-291 | store and projector side by side over any actions end with the recomputed results, and with non-void drafts every retract was paired |
| `Pipeline.AcceptKeepsInv` | src/runtime/handle.rs:833-856 | accepting an op keeps: live view is the fold of accepted ops, tables hold the landed ones, numbers increase |
| `Pipeline.RejectKeepsInv` | src/runtime/handle.rs:450-453 | so does rolling back a mutation that met a full queue |
| `Pipeline.LandKeepsInv` | src/runtime/handle.rs:765-783 | so does a successful append of the buffer |
| `Pipeline.LoseKeepsInv` | src/runtime/handle.rs:784-789 | so does a failed append, which loses exactly the buffer |
| `Pipeline.SnapKeepsInv` | src/runtime/handle.rs:713-716 | so does writing a snapshot of the live store, which settles what was accepted: nothing counts as lost or stale any more |
| `Pipeline.CompactKeepsInv` | src/runtime/handle.rs:717-719 | so does compaction, without changing what loads |
| `Pipeline.RetractKeepsInv` | src/runtime/handle.rs:846-850 | so does rolling back a durable mutation whose flush failed: store, journal and losses are as before it |
| `RuntimeProof.FlushLandsOrLoses` | src/runtime/handle.rs:745-791 | a flush lands the whole buffer or loses it, a lost batch leaves a failure notice and a landed one the durable number, and the primary key never gets in the way |
| `RuntimeProof.MutationKeepsInv` | src/runtime/handle.rs:427-595 | handling a mutation keeps the system invariant in all its outcomes |
| `RuntimeProof.ReplyKeepsInv` | src/runtime/handle.rs:605-666 | so does resuming after the worker's answer |
| `RuntimeProof.OpKeepsInv` | src/runtime/handle.rs:692-700 | so does the worker taking an op, which joins the buffer and may begin an append; the slot in the queue is free from then on |
| `RuntimeProof.RequestTaken` | src/runtime/handle.rs:702-730 | so does the worker taking a flush, checkpoint or shutdown message, the last one in the queue |
| `RuntimeProof.BatchKeepsInv` | src/runtime/handle.rs:697-738 | so does an append begun on a threshold or at the deadline, whether it lands or is lost, with the loop at work meanwhile |
| `RuntimeProof.ControlKeepsInv` | src/runtime/handle.rs:702-733 | so does the append a request asked for, and what the worker then does with the request |
| `RuntimeProof.RestartIsOk` | src/persist/sqlite.rs:59-72 | so does a crash at any moment: if the tables load, a runtime starts on the loaded store; if not, it stays down and whatever waited is lost |
| `RuntimeProof.StepKeepsInv` | src/runtime/handle.rs:209-275 | every step of loop or worker keeps the system invariant |
| `RuntimeTheorems.CleanRunsAreCrashConsistent` | src/runtime/handle.rs:427-791 | for every interleaving without failed appends and without the rejection of a stale undo or redo, the tables load to the store after a prefix of accepted ops that holds every op at or below an announced number, and buffer plus queue lead on to the live store |
| `RuntimeTheorems.ConsistentWhenNothingLost` | src/runtime/handle.rs:427-791 | the same at any moment when nothing is lost, whatever failed and healed before |
| `RuntimeTheorems.CleanStepsKeepConsistency` | src/runtime/handle.rs:427-791 | and from such a moment on until the next failure |
| `RuntimeTheorems.ShutdownLosesNothing` | src/runtime/handle.rs:648-665 | after a clean run and shutdown the tables load to the live store |
| `RuntimeTheorems.SequenceNumbersAreUnique` | src/persist/schema.sql:1-2 | journal, buffer and queue are strictly increasing and below the next number, journaled ops were accepted, and appends meet no key conflict, over restarts and dropped batches |
| `RuntimeTheorems.EveryOpIsSomewhere` | src/runtime/handle.rs:685-791 | conservation: after any run an op accepted since the newest snapshot is in exactly one place, waiting, journaled or lost |
| `RuntimeTheorems.LoadsWhenNothingLost` | src/persist/sqlite.rs:59-72 | tables can only fail to load after a loss or a wrong void flag |
| `RuntimeTheorems.CheckpointHeals` | src/runtime/handle.rs:621-647 | whenever a checkpoint answers Ok the tables load to the live store and nothing counts as lost or stale |
| `RuntimeTheorems.HealedRunsAreCrashConsistent` | src/runtime/handle.rs:621-647 | any run, then a checkpoint that answers Ok, then clean steps: crash consistent again |
| `RuntimeTheorems.CrashBetweenSnapshotAndCompaction` | src/runtime/handle.rs:713-721 | in that window the tables load to the live store with or without the compaction |
| `RuntimeAcks.DurableAckIsDurable` | src/runtime/handle.rs:841-850 | in durable mode over a sink that never fails, at every ack, also one sent after an automatic checkpoint, queue and buffer are empty and the tables load to the live store |
| `RuntimeAcks.ExcessStep` | src/runtime/handle.rs:685-791 | each failed append that no request asked for adds exactly one op that nobody takes back, and nothing else does |
| `RuntimeAcks.DurableAckIsTrueIff` | src/runtime/handle.rs:692-738 | at every ack over a failing sink, all ops accepted since the newest snapshot are journaled if and only if since then no append failed at the deadline or because an op filled the batch |
| `RuntimeAcks.DurableAckCanLie` | src/runtime/handle.rs:692-705 | a concrete run in which an append fails on arrival and the insert is acked although the tables stay empty |
| `RuntimeHealth.StuckUntilRestart` | src/runtime/handle.rs:858-875 | in durable mode an unhealthy loop with nothing waiting and no durable notice on its way refuses every mutation until a restart, whatever else happens |
| `RuntimeHealth.ServesAgainIffNotStuck` | src/runtime/handle.rs:232-254 | a durable loop between requests can come back to health without a restart if and only if it is not stuck, that is, unless it is unhealthy and no durable notice is on its way |
| `RuntimeHealth.ServingAccepts` | src/runtime/handle.rs:858-875 | a healthy loop between requests takes the next mutation that the store takes |
| `RuntimeHealth.FailedFlushSticks` | src/runtime/handle.rs:846-850 | one failed flush of a fresh runtime is enough to get stuck |
| `RuntimeHealth.CheckpointLeavesStuck` | src/runtime/handle.rs:621-647 | from any stuck loop between requests a checkpoint can answer Ok and heal the tables, and the loop is as stuck as before |
| `RuntimeHealth.CheckpointHealsTablesNotLoop` | src/runtime/handle.rs:621-647 | a concrete run from an empty store that ends so |
| `RuntimeProgress.SomethingIsDue` | src/runtime/handle.rs:417-743 | no deadlock: for a loop that waits on the worker, some step is always due, without the deadline and without a failure |
| `RuntimeProgress.EveryStepShrinks` | src/runtime/handle.rs:417-743 | whatever step loop or worker takes meanwhile, failures included, ends the wait or brings its end nearer |
| `RuntimeProgress.WaitEnds` | src/runtime/handle.rs:417-743 | so every long enough list of steps passes a point where the loop serves again or has shut down |
| `RuntimeProgress.WaitCanEnd` | src/runtime/handle.rs:417-743 | and from every wait such a list exists |
| `RuntimeRecovery.RecoversIffFitting` | src/persist/sqlite.rs:59-72 | at any moment of any run a restart succeeds if and only if the events after the newest snapshot fit together, which they do while nothing is lost or stale |
| `RuntimeRecovery.DroppedInsertBricksJournal` | src/runtime/handle.rs:765-789 | a concrete run, both mutations acked, whose journal can never be reopened: the insert's batch was dropped, the patch's went through |
| `RuntimeTheorems.AnnouncementsAreTrue` | src/runtime/handle.rs:232-240 | exactly one value is announced or on its way for each batch that landed since the start, ever greater; the recorded number is the last announced; and every accepted op at or below an announced value is journaled, numbered below the snapshot that loading starts from, or among the dropped |
| `RuntimeTheorems.LandedBatchIsListed` | src/runtime/handle.rs:778-782 | a batch that lands is listed with the number of its last op, one that fails is not |
| `RuntimeTheorems.NoticeDecidesHealth` | src/runtime/handle.rs:232-254 | a durable notice is announced and makes the loop healthy, a failure notice makes it unhealthy |
| `RuntimeAnswers.RefusedIff` | src/runtime/handle.rs:858-875 | a mutation is refused as unhealthy if and only if durable and unhealthy, and then nothing else changes |
| `RuntimeAnswers.FailedIff` | src/runtime/handle.rs:456 | otherwise it is answered with the store's error if and only if the store fails it |
| `RuntimeAnswers.QueueFullIff` | src/runtime/handle.rs:450-453 | otherwise it is answered with queue-full if and only if the queue is full; then the op is accepted and queued nowhere, the loop is unhealthy, and the view is back if and only if it was no stale undo or redo |
| `RuntimeAnswers.AcceptedOtherwise` | src/runtime/handle.rs:833-856 | otherwise its op is accepted and queued; in memory mode it is acked at once unless it starts an automatic checkpoint, in durable mode a flush is requested |
| `RuntimeAnswers.AckedIsAccepted` | src/runtime/handle.rs:427-595 | over every run each acked op, automatic checkpoints included, is among the accepted ones and never taken back |
| `RuntimeAnswers.NotPersistedIsUnaccepted` | src/runtime/handle.rs:846-850 | an op answered as not persisted is accepted and waiting nowhere, the loop is unhealthy, and the view is back if and only if it was no stale undo or redo |
| `RuntimeAnswers.DurableAnswerIsTrue` | src/runtime/handle.rs:841-850 | over every run a durable mutation is answered as not persisted if and only if the append it asked for failed, and else acked, at once or after its checkpoint |
| `RuntimeAnswers.FlushAnswerIsTrue` | src/runtime/handle.rs:605-620 | over every run a flush is answered with a failure if and only if the append it asked for failed, and else with the worker's durable number and nothing waiting |
| `RuntimeAnswers.CheckpointAnswerIsTrue` | src/runtime/handle.rs:621-647 | over every run a checkpoint is answered with a failure if and only if its append, write or compaction failed; an Ok means the tables load to the live store and nothing is waiting, lost or stale |
| `RuntimeAnswers.WaitsEndInAnswers` | src/runtime/handle.rs:648-665 | an automatic checkpoint ends in the ack of its insert however it went, a shutdown in its own answer |
| `RuntimeAnswers.OneAnswerEach` | src/runtime/handle.rs:417-669 | every request taken since the start is answered exactly once, or is the one being served |
| `RuntimeBounds.QueueAndBatchAreBounded` | src/runtime/handle.rs:685-735 | over every run the queue keeps to its bound, and a batch that calls for an append is being appended |
| `RuntimeBounds.BatchBeginsIff` | src/runtime/handle.rs:692-700 | taking an op begins an append if and only if the batch is full or the op is an insert to be flushed |
| `RuntimeBounds.IntervalIsKept` | src/runtime/handle.rs:793-823 | over every run the counter is the acked inserts since the interval was last reached and stays below it, and an automatic checkpoint is under way exactly when it is reached |
| `RuntimeBounds.CheckpointLeavesRows` | src/runtime/handle.rs:713-720 | over every run, when a checkpoint is answered with Ok the newest row is the live store under its number, and with compaction on no event is numbered at or below it |
| `RuntimeBounds.JournalIsKept` | src/runtime/handle.rs:717-719 | with compaction off no run ever takes an event or a snapshot away |
| `Runtime.LoopAndWorker.HandleMutation` | src/runtime/handle.rs:427-595 | over the real store and channels, the modelled handling of a mutation |
| `Runtime.LoopAndWorker.Persist` | src/runtime/handle.rs:833-856 | over the real objects, enqueueing with rollback on a full queue |
| `Runtime.LoopAndWorker.FinishAck` | src/runtime/handle.rs:458-461 | counts acked inserts and starts the automatic checkpoint at the interval |
| `Runtime.LoopAndWorker.HandleReply` | src/runtime/handle.rs:605-666 | over the real objects, resuming after the worker's answer |
| `Runtime.LoopAndWorker.HandleNotice` | src/runtime/handle.rs:232-254 | health and announcements after a notice from the worker |
| `Runtime.LoopAndWorker.FlushBuf` | src/runtime/handle.rs:745-791 | over the real sink, the modelled flush |
| `Runtime.LoopAndWorker.HandleMessage` | src/runtime/handle.rs:685-735 | over the real channels, the worker taking one message |
| `Runtime.LoopAndWorker.HandleAppend` | src/runtime/handle.rs:765-776 | over the real sink, the append under way committing or failing, and the request behind it served |
| `Runtime.LoopAndWorker.HandleSnapshot` | src/runtime/handle.rs:713-720 | over the real sink, the snapshot write of a checkpoint |
| `Runtime.LoopAndWorker.TakeStep` | src/runtime/handle.rs:209-275 | the objects follow the step system, whichever side moves |
| `Runtime.Reopen` | src/persist/sqlite.rs:59-72 | reopening builds a running system in the state a restart of the model has |
| `RuntimeRuns.CrashAndReopen` | src/persist/sqlite.rs:59-72 | over the real objects, a crash and the attempt to start again |
| `RuntimeRuns.RunActions` | src/runtime/handle.rs:209-275 | the objects driven through any interleaving with failures and crashes end in the modelled state, keep the system invariant, and after a clean run are crash consistent |

## Left out

- ProjectionTheorems.IncrementalIsFull: engines are those whose state is a count per dependency key, whose keys depend on the record alone and whose invalidation is the symmetric difference, plus the union when evaluations differ; the trait allows others.
- ProjectionTheorems.ProjectionTracksEveryRun: a projector starts empty and the source has no way to bootstrap it over a loaded store, so runs start from stores without live records.
- RuntimeTheorems.CleanRunsAreCrashConsistent: assumes that the sink's flush after a successful append does not fail and that the channels stay open; the code then rolls back an op that is already journaled.
- RuntimeTheorems.ConsistentWhenNothingLost: a rollback of a stale void makes the live view differ from the accepted ops; the theorem excludes such runs until the next written snapshot or restart.
- RuntimeProof.FlushLandsOrLoses: a sink whose flush fails after a successful append is not modelled.
- Runtime.LoopAndWorker.FlushBuf: likewise.
- Sqlite.SqliteOpSink.LoadStore: requires the newest snapshot to be well-formed, as every exported one is; a corrupted snapshot row is not modelled.
- Runtime.Reopen: likewise requires a well-formed newest snapshot.
- Indices.InsertIdOrdered: the fallback position for an id without a position is not modelled; a consistent store has none.
- The 64-bit width of ids and sequence numbers, and the saturating additions at its end: numbers are unbounded.
- Operation timestamps (`ts_ms` of stored ops) and the clock.
- SQLite itself, pragmas, JSON envelopes, format versions, meta rows and migration: tables are sequences with an atomic append.
- Channels as such, one-shot replies, locks and real time: the queue is a bounded FIFO and the flush deadline is a step that may happen whenever the buffer is not empty.
- Broadcast events other than durability announcements, and error-message strings.
- A runtime without a sink, and the read-only commands get, recent and by-call of the loop.
- Getters, cloning variants, `recent`, and the queries by contest.
