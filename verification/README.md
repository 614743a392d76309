# Migronaut: a verified model of its background migrations

This project models the parts of migronaut that decide whether documents are rewritten safely, and
proves what they are relied on for. Dafny 4.11 checks it with `dafny verify dfyconfig.toml`.

A background migration rewrites the documents of a collection from one version to another while the
application keeps writing. One *state* document says where it is; *partition* documents split the
collection; *coordinators* plan passes, close them and start the next; *lanes* claim partitions under a
lease and rewrite them batch by batch. Any process may be slow, stale or gone at any moment.

How the modules are laid out:

- **One document, one batch.** `Documents` is the contract of a versioned document (optimistic filter,
  operator update). `LaneWrites` is any number of lanes against an application that keeps writing.
  `ApplyBatch` and `TransactionalBatch` are the two ways a batch is written; `KeysetPass` and
  `HashedDrain` are the two ways a partition is scanned, `UndrainedPass` is a pass that ends with documents
  left; `Controls` is the loop around them.
- **The store.** `Store` is every write to the partition documents as an atomic step (filter, update, and
  the two unique indexes as guards; the server's clock and fresh ids are part of the state). `LaneCaps`,
  `Fencing` and `Totals` are about all runs of those steps. `BackgroundStore` is the object the callers
  see: it keeps a log of its writes, which ties it to what is proved about runs, and a script of what
  other processes write between its calls.
- **Coordinators.** `Coordination` is the machine of the state document, the partitions and any number of
  coordinators, each holding copies as old as it likes (the coordinator lock may be lost), with lanes,
  controls and crashes as steps. `CoordinationInv` is its invariant; `OnePlan`, `RollUps`, `Completion`,
  `Failures` and `BadIds` are the laws, `PlanningPass` and `ClosingPass` what planning and closing a pass come to
  undisturbed, `StaleCleanUp` and `StaleCompletion` two runs that show what the laws leave open.
- **Splitting.** `IdRanges` cuts a sample of ids; `ChunkRuns`, `ShardSplits` and `ShardPlan` plan a sharded
  collection over the key order of `ShardKeys`.
- **Around them.** `Adaptive` is the batch-size controller, `Rollback` the order of a rollback, `JobIds` the
  ids of queue jobs, `JobLog` the rows of a job's log. `Arithmetic`, `Text` and `Wrappers` are helpers.

Code that changes state step by step is an object or a method with loops, proved against functions
(`BackgroundStore`, `Adaptive.Controller`, `Rollback.Changelog`, `JobLog.RowWriter`, the batch loops, the
splitters). Protocols of several processes are state machines whose steps are the single store calls, and
their theorems hold of every run.

## Where the code does not do what it says

Of each of these a concrete case is proved in which the promise fails, and exactly when it holds.

- The transactional batch is said to have exact counters (src/core/background-engine.js:609-611). A
  document excluded before the batch was halved past it is counted as failed, and once more by the batch
  that reads it next. The case: two documents, of which the second fails before the batch is halved
  (`TransactionalBatch.CountersCanBeOff`, `TransactionalBatch.ExcludedBeyondTheEndIsCountedTwice`). The
  counters are exact if and only if no turn excluded a document past those that fit the final size
  (`TransactionalBatch.CountersAreExactIff`).
- The same loop can repeat for ever: one document, already excluded, and a commit that still runs out of
  time or room (src/core/background-engine.js:708-713). The case is `TransactionalBatch.TheLoopCanStutter`,
  and `TransactionalBatch.StutteringNeverEnds` what comes of it; a turn that goes on makes progress if and
  only if it is not that one (`TransactionalBatch.EveryTurnMakesProgress`).
- The clean-up after a commit deletes by *its own* plan token (src/core/background.js:502). A coordinator
  overtaken between the two deletes the running partitions of the newer plan, and progress falls: the case
  is `StaleCleanUp.ProgressCanFall`. Progress is what landed if and only if no clean-up deleted anything that
  had counted and was not rolled up (`RollUps.ProgressIsWhatLanded`, `RollUps.CleanUpKeepsProgressIff`).
- A state is moved to completed without asking for its generation (src/core/background.js:597-603). A
  coordinator that counted zero and stalled completes while the next pass is under way, with an open
  partition and a matching document: the case is `StaleCompletion.CompletesWithAnOldPass`. The pass completed
  with is the current one if and only if no plan was committed meanwhile
  (`Completion.CompletedPassIsCurrentIff`).
- One pass drains a quiet collection only while the lists of bad ids are not cut
  (src/core/background-store.js:870-874). More documents than are kept, all refused in one batch, end a pass
  undrained, if the lane crashes between its checkpoint and its check of the error budget
  (src/core/background-engine.js:794-810; the budget itself is never above what is kept,
  src/core/background-spec.js:57): the case is `UndrainedPass.APassCanEndUndrained`. A pass drains if and
  only if the matching documents that cannot be rewritten are, with the earlier bad ids, no more than are
  kept (`KeysetPass.OnePassDrainsIff`).
- `sliceBracket` says that a range's count is the samples it holds (src/core/background-partition.js:91-95).
  With duplicate samples it need not be: the case is `IdRanges.CountsCanBeOff`. It is if and only if every
  cut that is kept falls on the first sample of its value (`IdRanges.CountsAreExactIff`).
- A rollback plan that is let through can still be blocked, by a record without a date
  (src/core/changelog.js:185-193): the case is two of them, both planned
  (`Rollback.AnAcceptedPlanCanBeBlocked`). It finishes if and only if no undated migration in it has others
  below (`Rollback.TopOfStackFinishesIff`).
- A takeover of a coordinator shares its id with the coordinator of a migration that is named like it
  (src/bullmq/jobs.js:607): the case is `JobIds.ATakeoverCanMerge`, exactly when is
  `JobIds.CoordinatorsMergeIff`. Such a name has no file extension; a directory listing takes only names that
  end in one (src/core/sequence.js:16-40), so it comes from a run asked for a single file. A name that does
  not end in a digit is safe (`JobIds.NoTakeoverMergesWithout`).

## Model

| member | source | states |
|---|---|---|
| Documents.OccMatchesMeaning | src/versioning/document.js:149-162 | the optimistic filter matches a stored document exactly if it has the source version and the revision that was read: the same count, missing and null being 0, or the very value where it is no count |
| Documents.DiffStoresTheStampedDocument | src/versioning/document.js:201-233 | applied to the document it was computed from, the operator update stores exactly the transformed document at the target version, one revision on — exactly if the increment finds a number there or nothing |
| Documents.RefusedIff | src/versioning/document.js:201-233 | a transformation is refused exactly if its result is no document, has another `_id`, or a field that cannot be written |
| Documents.UntouchedFieldsAreNotWritten | src/versioning/document.js:201-233 | a field the transformation left alone appears in no operator of the update |
| Documents.StampIsAtTheTarget | src/versioning/document.js:201-233 | what a rewrite stores reads as the target version, with the revision one on and the id unchanged |
| LaneWrites.WriteLandsOnItsSnapshot | src/core/background-engine.js:155-190 | in every reachable state a guarded write that lands does so on the very document its transformation was computed from, and stores that result |
| LaneWrites.AWriteLandsIff | src/core/background-engine.js:155-190 | a prepared write lands exactly if the stored document is still its snapshot, with a revision an increment takes |
| LaneWrites.StepKeepsInv | src/core/background-engine.js:249-347 | every step of lanes and application keeps the invariant: a revision identifies the content of its document |
| LaneWrites.EveryRunIsSerial | src/core/background-engine.js:155-347 | for every interleaving of lanes, whichever way each of them migrates, replays and late writes included, the collection is the one left by a serial history in which each migration reads, transforms and writes one document in one event |
| LaneWrites.NoApplicationWriteIsLost | src/core/background-engine.js:155-347 | that history holds every application write once, in the order they were made |
| LaneWrites.CrossesOnce | src/core/background-engine.js:155-347 | between two migrations of one document from the same version in that history something stored that version again: the application, or a migration the other way |
| ApplyBatch.ApplyBatch | src/core/background-engine.js:249-347 | whatever every round is answered, the batch ends within maxConflictRetries + 1 rounds; migrated, skipped, conflicts and errors add up to the documents given; its counts and left-over ids are those of the specification |
| ApplyBatch.ApplyRound | src/core/background-engine.js:261-345 | one round counts exactly the documents it concludes and hands on those still in the way |
| ApplyBatch.WriteRound | src/core/background-engine.js:261-286 | the documents with a write of their own, in order, and the errors of those refused before or failed by it |
| ApplyBatch.JudgeRound | src/core/background-engine.js:292-337 | of the documents with a write after a round that missed some: how many were rewritten after all, how many are out of the way, and those to try again at the revision read now |
| ApplyBatch.VerdictMeaning | src/core/background-engine.js:292-337 | what a verdict says of the document stored now: the batch's own write still in place counts as rewritten; a document its update would still apply to is never taken for done; what counts as rewritten is at the target version and revision and out of that update's reach |
| ApplyBatch.MigratedMeaning | src/core/background-engine.js:276-321 | a document counted as migrated was attempted in some round in which every write that did not fail matched, or after which it was found at the target version, at the revision its own write leaves |
| ApplyBatch.SkippedMeaning | src/core/background-engine.js:303-337 | a document counted as skipped was attempted in some round whose writes did not all match, and found gone, at a version neither source nor target, at the target by another write, or at the source and out of the migration's filter |
| ApplyBatch.AgainMeaning | src/core/background-engine.js:321-337 | tried again are exactly the documents found at the source version and still matching after a round that missed some, each at the revision read now, whatever it was before |
| ApplyBatch.ErrorsIff | src/core/background-engine.js:261-286 | a document is an error exactly if some round it was tried in refused it before its write or failed that write |
| ApplyBatch.RetriesAreLaterTries | src/core/background-engine.js:338-344 | what counts as retried is every try of a document after its first |
| ApplyBatch.EveryDocumentIsCounted | src/core/background-engine.js:249-347 | the four counts of a batch add up to the documents given to it |
| ApplyBatch.EveryDocumentIsAccountedFor | src/core/background-engine.js:249-347 | a document is in the account of a batch exactly if it was given to it |
| ApplyBatch.ConflictsAreStillInTheWay | src/core/background-engine.js:327-343 | a conflict was found at the source version, still matching, in every single round |
| ApplyBatch.ConflictsIff | src/core/background-engine.js:321-344 | a document ends as a conflict exactly if every round attempted it, missed some write, and found it at the source version and still matching |
| TransactionalBatch.Fit | src/core/background-engine.js:585-592 | the leading documents cut to what fits the byte budget |
| TransactionalBatch.FittingIsTheLongestFit | src/core/background-engine.js:585-592 | that is the longest prefix within the budget, but never less than one document |
| TransactionalBatch.WhatATurnReads | src/core/background-engine.js:636-646 | a turn reads the longest prefix of the rows within its size and, past the first, within the byte budget |
| TransactionalBatch.WhatATurnLeaves | src/core/background-engine.js:660-738 | every end of a turn and what it leaves: fatal failures throw; a document's own failure excludes it; want of time or room halves a batch of more than one and excludes a lone document; a lone write conflict is stepped past; anything else spends a retry, with the size kept up to half of maxRetries and halved after, and throws past maxRetries |
| TransactionalBatch.GoesOnOnlyAfterWhatItKnows | src/core/background-engine.js:693-738 | the loop goes on only after a document's own failure, a write conflict, want of time or room, or a transient error |
| TransactionalBatch.AFatalTurnThrows | src/core/background-engine.js:634-697 | whatever came before, a turn that is told to stop, lost its lease or fails with any other error ends the loop with nothing written |
| TransactionalBatch.CommitsInTheOneThatSucceeds | src/core/background-engine.js:634-706 | a loop that committed did so in its one turn that succeeded, after turns it may go on from |
| TransactionalBatch.EveryTurnMakesProgress | src/core/background-engine.js:622-742 | a turn that goes on excludes a new document, halves a batch of more than one or spends a retry exactly if it is not the stuttering one; the size stays between 1 and the size asked for |
| TransactionalBatch.TheLoopEnds | src/core/background-engine.js:622-742 | without a stuttering turn the loop is over within documents + size + retries turns |
| TransactionalBatch.Run | src/core/background-engine.js:622-742 | the loop ends as the specification says, within documents + batch size + retries turns unless it stutters, and leaves the next batch size, and the count of clean batches, as the specification says |
| TransactionalBatch.CleanIsKeptIff | src/core/background-engine.js:683-704 | a batch that committed leaves the count of clean batches alone exactly if only single documents' failures came before |
| TransactionalBatch.GrowsWithTheFifth | src/core/background-engine.js:683-691 | four clean batches leave the size, the fifth makes it half as much again, up to the size asked for |
| TransactionalBatch.CleanBatchesGrowBack | src/core/background-engine.js:683-691 | n times five clean batches give a halved size back at least n documents, up to the size asked for |
| TransactionalBatch.StutteringNeverEnds | src/core/background-engine.js:708-713 | a stuttering turn can be repeated any number of times and leaves the loop as it was |
| TransactionalBatch.TheLoopCanStutter | src/core/background-engine.js:708-713 | such a turn is reached: one slow document, then a commit that is too slow as well |
| TransactionalBatch.CountersAreExactIff | src/core/background-engine.js:609-611 | over the whole loop, documents read are migrated plus failed exactly if no turn excluded a document past those that fit the size the batch was shrunk to |
| TransactionalBatch.BadIsWhatWasExcluded | src/core/background-engine.js:622-742 | what a committed batch reports as failed is exactly what its turns excluded |
| TransactionalBatch.ExcludedBeyondTheEndIsCountedTwice | src/core/background-engine.js:660-690 | of the documents the next batch reads, those the first excluded past its end are counted by both, the others once |
| TransactionalBatch.CountersCanBeOff | src/core/background-engine.js:609-611 | two documents, the second excluded before the batch is halved to the first: one read, two counted |
| KeysetPass.StepKeepsInv | src/core/background-engine.js:519-557 | claims, fences, reads, rewrites, refusals, checkpoints and crashes keep: behind a partition's cursor whatever still matches is a recorded bad id |
| KeysetPass.RunKeepsInv | src/core/background-engine.js:757-818 | so does every run, and no run brings a document back into the match |
| KeysetPass.WhatACheckpointLeaves | src/core/background-engine.js:519-557 | the holder's checkpoint closes its partition exactly if its batch was the last, and else moves the cursor to the last id read; nobody else's touches it |
| KeysetPass.EarlierFailuresAreLeftAlone | src/core/background.js:176 | over every run of a pass, the bad ids of earlier passes are neither read, rewritten nor refused again |
| KeysetPass.OnePassDrains | src/core/background.js:585-625 | once every partition of a covering plan is done, nothing matches outside the recorded bad ids, if the documents ever refused are, with the earlier bad ids, no more than are kept |
| KeysetPass.OnePassDrainsIff | src/core/background-store.js:870-874 | where it is up to the document whether it can be rewritten, a pass drains exactly if the matching ones that cannot are, with the earlier bad ids, no more than are kept |
| UndrainedPass.APassCanEndUndrained | src/core/background-engine.js:794-810 | any more than that, refused in one batch whose lane crashes before it checks the budget, end a pass whose partitions are all done while some still match |
| HashedDrain.BatchMakesProgress | src/core/background-shard.js:482-504 | every batch shrinks what is left to read or ends a region; a full one moves every document it read out of the match or onto the list stepped over |
| HashedDrain.TheScanEndsWithin | src/core/background-shard.js:448-504 | a draining scan ends within as many batches as documents plus version regions |
| HashedDrain.ADoneScanCovers | src/core/background-shard.js:330-336 | when it ends, whatever still matches was stepped over or lies in a region MAX_STUCK cut short, in both regions of source 0 |
| HashedDrain.FewStuckDrain | src/core/background-shard.js:482-504 | a range in which at most a hundred documents are ever stepped over is drained but for those |
| Controls.ProcessPartition | src/core/background-engine.js:757-818 | the loop runs a batch exactly in the turns that nothing stops, ends for the first reason in the code's order — a batch that failed documents beyond maxDocumentErrors among them — and its counters and cursor are those of the batches it ran |
| Controls.UndisturbedTurnsRun | src/core/background-engine.js:757-818 | as many turns as are neither aborted nor overdue, read a running state on the lane's plan and have a batch that goes on, so many batches it runs |
| Controls.EndsForItsReason | src/core/background-engine.js:757-818 | it ends nowhere else: no earlier batch spent the budget or was the last; it stops only where told to, and yields only after a batch of its own |
| Controls.TheCursorIsTheLastPlace | src/core/background-engine.js:776-818 | it leaves the partition where the last batch that went on left it, or where it started |
| Controls.EveryBatchCounts | src/core/background-engine.js:430-434 | one batch more adds exactly what it counts |
| Controls.WhatStopsALane | src/core/background-engine.js:821-831 | a lane goes on exactly if the state is there, running, and at its generation and plan; paused, cancelled or gone, failed, and otherwise stale are each told exactly for their one cause |
| Controls.ReadingStartsABatchIff | src/core/background-engine.js:768-770 | in the machine a control read starts a batch exactly if the state is running at the lane's generation and plan, and ends the lane else |
| Controls.AtMostTheBatchUnderWay | src/core/background-engine.js:764-831 | after a pause, cancel, failure, completion or newer plan a lane writes only in the batch it was in, and not at all if it was in none, over every run of the whole machine; a newer plan stops it for good |
| Controls.HaltsHold | src/core/background-spec.js:494-508 | of all steps only a resume or a retry leaves a halt, and only a cancel changes it, where it is a pause: no completion or failure by a coordinator does |
| Controls.PauseAndResume | src/core/background.js:985-1003 | a pause and a resume leave everything as it was, with the status the phase calls for |
| Controls.CancelAndRetry | src/core/background.js:985-1042 | cancelled, closed and retried before its pass is over, the migration sets out again with every partition that was not done pending from where it stood, and every other one as it was |
| Controls.WhatTheControlsDo | src/core/background.js:985-1020 | start, pause, resume, cancel and a failure move the status as they say and change nothing else |
| Controls.WhatACancelCloses | src/core/background.js:1027-1034 | it cancels every open partition of the plan it was read with and touches no other |
| Controls.WhatARetryReopens | src/core/background.js:993-1045 | it makes a pass that has not closed go on, with its failed and cancelled partitions pending from where they stood, and starts another pass after one that has |
| Store.Plus | src/core/background-engine.js:430-434 | adding counters adds them key by key |
| LaneCaps.StepKeepsTheInv | src/core/background-store.js:52-77 | every write keeps: slots below maxParallel, no two leases with one slot, one group slot or one token |
| LaneCaps.LaneCapsHold | src/core/background-store.js:695-816 | in every reachable state at most maxParallel partitions are leased, on different slots, and under sharded claims at most shardConcurrency per group |
| LaneCaps.GroupsAreCapped | src/core/background-store.js:782-816 | partitions without a group share one set of group slots, and are capped together like a group |
| LaneCaps.FullMeansFull | src/core/background-store.js:796-814 | all of a group's slots are taken exactly if its own lanes fill it |
| Fencing.FencedForGood | src/core/background-store.js:861-895 | once a lease is lost no later run restores it, and no checkpoint with its token changes anything |
| Fencing.WhatEndsALease | src/core/background-store.js:612-684 | an expired lease that is reaped, an unlock, a release, a closing checkpoint and a failed slice all fence the holder off |
| Fencing.OnlyTheseEndALease | src/core/background-store.js:612-684 | and nothing else does: a lease ends by its holder's own step, an unlock of everything, the deletion of its partition, or a reaping after its time, never by a claim or another lane |
| Fencing.ALateFailureCounts | src/core/background-store.js:904-926 | a holder's failed slice counts, also after its lease was dropped, but not once another lane has claimed the partition or it is done |
| Fencing.AStoppedPlanStandsStill | src/core/background-store.js:419-425 | of a plan that is superseded or cancelled nothing is claimed, lands or fails any more, whoever still holds a lease |
| Fencing.ALeaseLastsItsTime | src/core/background-store.js:612-623 | renewed and then not again, a lease survives a reaping exactly as long as its time to live |
| Fencing.CountersAreWhatLanded | src/core/background-store.js:861-895 | over any run a partition's counters grow by exactly the checkpoints that landed on it |
| Fencing.HoldersSucceedOneAnother | src/core/background-store.js:754-816 | after one holder's checkpoint only it or a later holder lands another |
| Fencing.DoneIsFrozen | src/core/background-store.js:886-895 | a done partition never changes again, by any store write; it can only be deleted |
| BackgroundStore.BackgroundStore.constructor | src/core/background-store.js:92-95 | a new store is empty |
| BackgroundStore.BackgroundStore.ClaimPartition | src/core/background-store.js:695-751 | a claim ends whatever others write meanwhile, and a lease it returns was granted by one write. Undisturbed, after reaping: busy exactly if every slot is held; exhausted exactly if a slot is free but no open, unleased partition is outside a full group; else it holds the first of those, on a free slot |
| BackgroundStore.GrantedMeans | src/core/background-store.js:754-781 | a granted claim: the partition runs on from where it stood, under a fresh lease whose slot, group slot and token nobody else holds; nothing else changed |
| BackgroundStore.AFreshPlanStartsWithItsFirst | src/core/background-store.js:755-770 | of a plan just inserted the partition planned first is claimed first |
| BackgroundStore.StartedOnesComeFirst | src/core/background-store.js:755-770 | one that was started and has lost its lane is claimed before any that nobody started, and else the one planned earlier |
| BackgroundStore.BackgroundStore.ReapExpired | src/core/background-store.js:612-623 | exactly the leases not renewed within their own time are freed, and counted on their partitions |
| BackgroundStore.BackgroundStore.TrySlots | src/core/background-store.js:719-750 | the free slots are tried from an offset on until one attempt claims or finds nothing left |
| BackgroundStore.BackgroundStore.FreeSlots | src/core/background-store.js:698-717 | exactly the slots below maxParallel nobody holds, and only groups that are full |
| BackgroundStore.BackgroundStore.LeasesHeld | src/core/background-store.js:698-709 | the slots held, and per named group how many of its partitions are leased |
| BackgroundStore.BackgroundStore.ClaimOnePlain | src/core/background-store.js:754-781 | undisturbed it takes the first claimable partition, running ones first, or finds there is none |
| BackgroundStore.BackgroundStore.ClaimOneSharded | src/core/background-store.js:782-816 | the rounds end; undisturbed it takes the first claimable partition outside full groups, or finds there is none |
| BackgroundStore.BackgroundStore.TryGroupSlots | src/core/background-store.js:795-816 | a candidate's group slots tried in turn: written, candidate gone, slot lost, or every one of them taken |
| BackgroundStore.BackgroundStore.CommitPlan | src/core/background-store.js:359-416 | won, the state is at the new plan; lost, none of its partitions is left. Undisturbed it is won exactly if the state is as it was planned against, and lost without a trace |
| BackgroundStore.BackgroundStore.Checkpoint | src/core/background-store.js:861-895 | it lands exactly for the holder of the lease on a running partition, with cursor, counters, bad ids, failures, lease and status as documented, and is an error that changes nothing for anybody else |
| BackgroundStore.BackgroundStore.FailSlice | src/core/background-store.js:904-926 | a failure counts once, for the holder or once nobody holds the lease; at the limit the partition fails |
| BackgroundStore.BackgroundStore.FailPartition | src/core/background-store.js:928-942 | a partition fails at once, for the holder or once nobody holds the lease, and for nobody else |
| BackgroundStore.BackgroundStore.RenewLease | src/core/background-store.js:838-843 | a renewal that asks the server succeeds exactly for the holder, whose lease is then not expired |
| BackgroundStore.BackgroundStore.Release | src/core/background-store.js:844-849 | releasing ends one's own lease and touches nobody else's |
| BackgroundStore.BackgroundStore.UnlockEverything | src/core/background-store.js:676-684 | every lease is dropped, and nothing else of any partition |
| BackgroundStore.CapsHoldAlways | src/core/background-store.js:52-77 | whatever calls and other processes interleave on the object, the lanes' caps hold |
| CoordinationInv.StepKeepsInv | src/core/background.js:362-647 | every step of coordinators, lanes, controls and crashes keeps the invariant of plans, partitions and stale copies |
| CoordinationInv.RunKeepsInv | src/core/background.js:362-647 | so does every run |
| CoordinationInv.CommitKeepsInv | src/core/background-store.js:368-416 | in particular the compare-and-set of a plan, won or lost |
| CoordinationInv.RollUpKeepsInv | src/core/background.js:534-574 | and the roll-up of a generation, by a coordinator however stale |
| OnePlan.CurrentPartitionsComeFromOneCommit | src/core/background-store.js:368-416 | in every reachable state all partitions matching the state's generation and plan come from one single insert |
| OnePlan.GenerationsIncrease | src/core/background-store.js:398-413 | the plan changes exactly with a compare-and-set that goes through, which is one generation further and under the token inserted for it |
| OnePlan.SameGenerationIff | src/core/background-store.js:398-413 | over any run the generation is the one it was exactly if nothing was committed meanwhile |
| OnePlan.GenerationsNeverFall | src/core/background-store.js:398-413 | over any run generations only grow, and one generation has one plan |
| OnePlan.OriginsStay | src/core/background-store.js:372-397 | what was inserted under a token never changes |
| OnePlan.ALostCommitIsDead | src/core/background-store.js:412-416 | losing the compare-and-set leaves a plan nobody can commit any more |
| OnePlan.ALostRaceIsNeverClaimed | src/core/background-store.js:359-367 | over every later run its partitions are never leased, never run and never count |
| RollUps.LandingIsInTheOpenGeneration | src/core/background.js:530-575 | a checkpoint lands only on a generation not rolled up, and never between a pass being summed and its roll-up |
| RollUps.RollUpConserves | src/core/background.js:534-574 | a roll-up, however many coordinators attempt it, enters a generation's counters once |
| RollUps.StepConserves | src/core/background-store.js:474-519 | every step conserves progress plus what was lost: only the clean-up after a commit loses anything, and it loses the counters of the partitions it deletes that were not rolled up |
| RollUps.ProgressIsWhatLanded | src/core/background-store.js:550-577 | in every reachable state progress plus what clean-ups lost is the sum of all checkpoints that landed; progress is that sum exactly if every clean-up was harmless |
| RollUps.OnlyCleanUpsLowerProgress | src/core/background-store.js:550-577 | in every reachable state a step raises progress by what it lands, which only a checkpoint does, and lowers it exactly if it is a clean-up that deletes what counted — which one for the current plan never does |
| RollUps.CleanUpKeepsProgressIff | src/core/background-store.js:588-595 | a clean-up keeps progress exactly if no open or superseded partition of another plan, not rolled up, has counted; for the current plan it always does |
| StaleCleanUp.ProgressCanFall | src/core/background.js:456-503 | a run from the initial state in which an overtaken coordinator's clean-up makes progress fall |
| Completion.CompletedOnlyAfterAZeroCount | src/core/background.js:577-625 | a state is completed only by a coordinator that, with no failed partition in its copy, counted zero documents outside the bad ids for the pass it closed, whatever the plans covered; without a retry no pass rolled up until then had a failed partition |
| Completion.CompletedPassIsCurrentIff | src/core/background.js:597-603 | completing moves the status and the phase and nothing else of the state; the pass a coordinator completes with is the current one exactly if no plan was committed since that pass was the current one |
| Completion.CompletedIsFinal | src/core/background-spec.js:494-508 | no later step of the machine, which has no reopen, takes a state out of completed, or plans again |
| Completion.PassesAreBounded | src/core/background.js:626-647 | pass, generation and number of plans agree, and without a retry there are at most maxPasses |
| Completion.StepKeepsCompInv | src/core/background.js:577-647 | every step keeps what both rest on: no copy of the state forgets a failure or a pass |
| StaleCompletion.CompletesWithAnOldPass | src/core/background.js:597-603 | a run in which a stalled coordinator completes the state with pass 1 while pass 2 has an open partition and a document matches |
| ClosingPass.AnUndisturbedCloseDecides | src/core/background.js:530-647 | from any state a coordinator undisturbed with a fresh copy of a drained pass rolls all its counters up and then fails the migration exactly if a partition failed or documents are left in the last pass, completes it exactly if no partition failed and only bad ids match, and else starts another pass |
| PlanningPass.AnUndisturbedPlanIsCommitted | src/core/background.js:456-503 | from any state an undisturbed plan is committed as the next generation and pass, with one untouched partition for each planned one, in order, every open partition of another plan gone and every closed one as it was |
| PlanningPass.WhatACommitDrops | src/core/background-store.js:588-595 | the clean-up after a commit drops exactly the partitions of other plans that are not closed |
| PlanningPass.AReplacedPlanIsDropped | src/core/background-store.js:419-425 | a plan marked superseded is gone with the next commit, but for its closed partitions |
| PlanningPass.WhatALostRaceDrops | src/core/background-store.js:412-414 | a lost race for a commit drops exactly the partitions of its own plan |
| PlanningPass.WhatAClosedPassDrops | src/core/background-store.js:580-585 | the clean-up after a closed pass drops exactly the partitions of earlier generations |
| Failures.StepKeepsFailInv | src/core/background.js:534-585 | every step keeps: a generation whose roll-up saw no failed partition has none |
| Failures.CompletedWithoutFailures | src/core/background.js:577-625 | when a state is completed every partition of a plan up to the pass it was completed with is closed and, without a retry, unfailed, as far as it is still there; if that pass is the current one, this is every partition there is |
| BadIds.StepKeepsBadInv | src/core/background.js:534-574 | every step keeps: the bad ids of partitions, sums, copies and state were all reported as failed by a checkpoint that landed |
| BadIds.TheSumHasThemAll | src/core/background.js:534-548 | the sum a roll-up reads has exactly the bad ids of the partitions of its generation |
| BadIds.ARollUpKeepsEveryId | src/core/background.js:542-562 | a roll-up that goes through leaves in the state exactly the ids of its copy and of its sum, if they are no more than are kept, and as many of them as are kept in any case |
| BadIds.StepKeepsKept | src/core/background.js:534-574 | every step keeps: until more are reported than are kept, a partition's bad ids are in the state once it is rolled up, and in the sum of whoever is about to roll it up |
| BadIds.NoBadIdIsLost | src/core/background.js:542-562 | over every run in which no more documents were reported as failed than are kept, every bad id of every partition rolled up is in the state |
| BadIds.OnlyTheFailedMatchCountsZero | src/core/background.js:577-603 | and a coordinator that rolled its pass up counts zero, and may complete, whenever all that still matches is a bad id of a partition up to that pass |
| BadIds.CompletedLeavesOnlyTheFailed | src/core/background.js:577-625 | a state is completed only after a count that found nothing matching but documents reported as failed by a checkpoint that landed |
| IdRanges.SliceBracket | src/core/background-partition.js:96-130 | for every sorted sample: a chain of at most `parts` ranges, counts positive and adding up to the sample; `parts` even ones for as many different ids |
| IdRanges.CutBounds | src/core/background-partition.js:100-108 | the bounds are those of the cuts, repeated ones and the first id left out |
| IdRanges.BoundsAreTheDifferentCuts | src/core/background-partition.js:100-108 | the bounds are exactly the different sample ids at the cuts, but for the first id of all |
| IdRanges.RangesBetween | src/core/background-partition.js:109-129 | the ranges between bounds, each counting from its start to its end in the sample |
| IdRanges.ChainCoversOnce | src/core/background-partition.js:96-130 | every id, sampled or not, is in exactly one range of a chain |
| IdRanges.NoCutIsSkipped | src/core/background-partition.js:101-108 | with different ids and advancing cuts every cut becomes a bound |
| IdRanges.CountsAreExactIff | src/core/background-partition.js:91-95 | the counts are the samples in their ranges exactly if every kept cut is the first sample of its value |
| IdRanges.CountsCanBeOff | src/core/background-partition.js:91-95 | a sample with duplicates whose first range holds one of the two it counts |
| ShardKeys.LinkedHoldOnce | src/core/background-shard.js:187-252 | ranges end to end hold every tuple of their span exactly once and no other |
| ChunkRuns.RunsOf | src/core/background-shard.js:187-199 | runs stand for all chunks, none twice, each on one shard, no two neighbours on the same |
| ChunkRuns.CapRuns | src/core/background-shard.js:205-220 | at most `limit` blocks of ceil(runs / limit) runs each that still stand for all chunks, none twice |
| ChunkRuns.BlocksAreManyEnough | src/core/background-shard.js:205-220 | merged to a limit there are more than half as many blocks |
| ChunkRuns.BlockStands | src/core/background-shard.js:201-220 | a block spans its chunks, counts them all, and has a shard exactly if it is a single run |
| ChunkRuns.StandsIsLinked | src/core/background-shard.js:187-220 | what stands for adjacent chunks is end to end over the same key span |
| ChunkRuns.CountsAreConserved | src/core/background-shard.js:187-220 | chunk counts are conserved |
| ShardSplits.SplitHashed | src/core/background-shard.js:236-252 | a run cut into exactly `parts` equal hash slices end to end over it, or left whole when too small |
| ShardSplits.HashBoundariesFit | src/core/background-shard.js:231-252 | boundaries lie strictly inside the run and in signed 64 bits, and slice widths differ by less than `parts` |
| ShardSplits.BoundaryStartsItsHash | src/core/background-shard.js:231-235 | a boundary is at or before every tuple of its hash |
| ShardSplits.SplitSampled | src/core/background-shard.js:266-316 | a run cut, end to end over it, at exactly the different quantiles sample[k·m/parts], or left whole: with bounds of two classes, fewer samples than parts, or a timeout |
| ShardSplits.DifferentAreEachOnce | src/core/background-shard.js:296-315 | the boundaries ascend and are exactly the different quantiles, each once |
| ShardSplits.AllAreDifferentIff | src/core/background-shard.js:296-315 | every quantile makes a boundary, so that there are `parts` pieces, exactly if no two in a row are the same |
| ShardSplits.WhatIsLeftWhole | src/core/background-shard.js:257-301 | a run between values of two classes, one that was not sampled in time, or one with fewer samples than parts is left whole |
| ShardSplits.DifferentSamplesMakeAllPieces | src/core/background-shard.js:266-316 | with bounds of one class and at least `parts` different samples there are exactly `parts` pieces, the k-th starting at sample k·m/parts |
| ShardPlan.TargetLeavesNothingOut | src/core/background-shard.js:351-364 | the targeting predicate excludes no tuple of its range |
| ShardPlan.TargetStopsBeforeTheNext | src/core/background-shard.js:359-363 | where the rest of `max` is MinKey it does not match the value the next range starts with |
| ShardPlan.TargetIsDrawnIff | src/core/background-shard.js:351-358 | it is drawn exactly on a ranged first field between two values of one class that may be drawn on |
| ShardPlan.TargetStaysInside | src/core/background-shard.js:359-363 | it matches nothing outside the range of the first field |
| ShardPlan.LargestFirstIsAReordering | src/core/background-partition.js:141-144 | sorting keeps exactly the same slices, largest first |
| ShardPlan.SplitRuns | src/core/background-shard.js:396-430 | all runs split: the slices are those of the pieces each run has, in order, end to end over the span, every piece with a group on its shard, within the budget |
| ShardPlan.PartsForIsTheMost | src/core/background-shard.js:404-409 | the pieces a run is to be split into are the most that are allowed: no more than wanted, within the budget and within its shard's share |
| ShardPlan.AShardGetsItsShare | src/core/background-shard.js:404-409 | the runs of a shard are together to be split into its share, rounded up by less than one a run, unless the budget or the wanted are less |
| ShardPlan.AShardGetsAFewALane | src/core/background-shard.js:389-409 | with chunks a shard gets as many pieces as overPartition a lane, the limit for a shard and the limits of the plan allow, and no piece is wanted for fewer documents than minPartitionDocs |
| ShardPlan.PiecesAreAllIff | src/core/background-shard.js:410-415 | a run has as many pieces as it is to be split into exactly if it can be: wide enough a hashed range, or bounds of one class with enough samples and no repeated quantile; never more, never none |
| ShardPlan.AllAreSplitIff | src/core/background-shard.js:396-430 | over all runs there is at least one slice a run and at most what they are to be split into — these exactly if every run can be |
| ShardPlan.EstimatesAddUp | src/core/background-shard.js:421-430 | the estimates add up to the count, but for half a document a slice |
| ShardPlan.Plan | src/core/background-shard.js:366-443 | every tuple of the span in exactly one partition and no other in any, a partition with a group on that shard only, at most maxPartitions, largest first; at least one a run, and as many as the runs are to be split into exactly if all can be — without chunks as many as wanted; none for a count of zero |
| Adaptive.Controller.constructor | src/core/background-throttle.js:208-216 | a fresh controller starts at full size; a saved state is cut to what the settings allow |
| Adaptive.Controller.Record | src/core/background-throttle.js:227-256 | one batch moves the controller as the transition function says, and reports as it says |
| Adaptive.WhatABatchDoes | src/core/background-throttle.js:227-246 | the first batch warms up; trouble halves the size, or at the minimum doubles the pause, exactly if a round trip has passed since the last decrease; a good batch takes one step back exactly if there is something to recover |
| Adaptive.WhatIsReported | src/core/background-throttle.js:247-255 | a change is reported exactly if the last report is ten seconds old, with the size, the pause and the reason that was waiting |
| Adaptive.StaysSafe | src/core/background-throttle.js:227-256 | over any batches size and pause stay in range, and it pauses only at the minimum size |
| Adaptive.DecreasesAreSpaced | src/core/background-throttle.js:234-237 | two decreases are never closer than the later batch's latency |
| Adaptive.PendingDecreaseIsReported | src/core/background-throttle.js:247-255 | a decrease waiting to be reported is what the next report says |
| Adaptive.DecreasesHalve | src/core/background-throttle.js:239 | k decreases in a row leave a 2^k-th of the size, rounded down, but never less than the minimum |
| Adaptive.BacksOffInTime | src/core/background-throttle.js:240 | at the minimum k decreases make a pause of 100 ms times 2^(k-1), up to the longest |
| Adaptive.HalvingsAreTheLogarithm | src/core/background-throttle.js:244 | a pause takes one more halving than its binary logarithm to be gone |
| Adaptive.RecoversInTime | src/core/background-throttle.js:242-246 | after k fast batches it is at full speed exactly if k reaches the halvings of the pause plus the steps up that are left |
| Adaptive.StepsUpAreFew | src/core/background-throttle.js:210 | the steps up are never more than 38 |
| Rollback.NewestFirstIsAStack | src/bullmq/producer.js:96-101 | sorting gives the same rows, newest first |
| Rollback.AssertTopOfStack | src/bullmq/producer.js:230-249 | it names exactly the applied migrations a plan skips, and passes exactly if the plan is the top of the stack |
| Rollback.TopOfStackFinishesIff | src/core/changelog.js:185-198 | the top of the stack, newest first, runs to its end leaving the rest applied, exactly if no undated migration in it has others below |
| Rollback.RefusedCannotFinish | src/bullmq/producer.js:224-249 | a plan that skips something fails in every order of its jobs |
| Rollback.PlanIsThePrefix | src/bullmq/producer.js:256-296 | put in revert order, an accepted plan is the prefix of the stack |
| Rollback.AcceptedIffItCanFinish | src/bullmq/producer.js:230-296 | from the applied rows in any order: accepted plans finish (all dated: always) with the rest applied, refused ones fail in every order |
| Rollback.AnAcceptedPlanCanBeBlocked | src/core/changelog.js:185-198 | two migrations applied without a date, both to be reverted: accepted, and the first job is blocked |
| Rollback.Changelog.GetAppliedNewerThan | src/core/changelog.js:185-198 | exactly the applied records newer than the one given; none exactly if it is not blocked |
| Rollback.Changelog.MarkReverted | src/core/changelog.js:337-355 | only an applied record is reverted, and it keeps the rest of itself |
| Rollback.Changelog.RunDown | src/core/changelog.js:337-355 | the jobs in order end as the specification says: all reverted, or stopped at a blocked one |
| JobIds.Utf8RoundTrip | src/bullmq/jobs.js:150-158 | the bytes of a character, as in section 3 of RFC 3629, decode to it, and the first says how many there are |
| JobIds.IdFragment | src/bullmq/jobs.js:150-158 | the fragment built character by character and byte by byte is the one specified |
| JobIds.FragmentRoundTrip | src/bullmq/jobs.js:143-158 | every name can be read back from its fragment |
| JobIds.FragmentsAreInjective | src/bullmq/jobs.js:143-158 | two names never share a fragment |
| JobIds.FragmentIsTheNameIff | src/bullmq/jobs.js:143-158 | a name is its own fragment exactly if it is made of letters, digits, dots, underscores and dashes |
| JobIds.FragmentIsOfThese | src/bullmq/jobs.js:143-158 | every fragment is made of those and `~` |
| JobIds.DedupIdsAreInjective | src/bullmq/jobs.js:160-171 | a deduplication id stands for one direction, one name, forced or not |
| JobIds.DedupIdsAreNotConverges | src/bullmq/jobs.js:166-182 | and never for a converge |
| JobIds.ConvergeIdsAreInjective | src/bullmq/jobs.js:173-182 | converges after different migrations have different ids, and so has the one after none |
| JobIds.CoordinatorsMergeIff | src/bullmq/jobs.js:585-612 | coordinators share an id exactly if their names, with `-t` and a takeover's round appended, are the same |
| JobIds.ATakeoverCanMerge | src/bullmq/jobs.js:607 | a takeover and a plain request, for a single file named without extension, under one id |
| JobIds.NoTakeoverMergesWithout | src/bullmq/jobs.js:585-612 | a takeover never merges with a plain request for a name that does not end in a digit |
| JobIds.LaneJobIdsAreEqualIff | src/bullmq/jobs.js:619-653 | lane ids are equal exactly if all numbers and the joined names are; with registrations of one length, only for the same lane of the same spawn |
| JobIds.LaneDedupIdsAreEqualIff | src/bullmq/jobs.js:645 | a lane without a parent is merged per lane slot, whatever its round and spawn |
| JobLog.BoundedJson | src/bullmq/processor.js:126-166 | the first max + 1 characters of the full rendering, or all of it; an error only from a leaf that throws before that |
| JobLog.RowWriter.constructor | src/bullmq/processor.js:126-127 | nothing is written yet |
| JobLog.RowWriter.Push | src/bullmq/processor.js:128-134 | a text is appended, or cut where the row is full |
| JobLog.RowWriter.Write | src/bullmq/processor.js:135-160 | writing any value, from anything written before, leaves the full rendering, cut where the row is full |
| JobLog.OneLineIsClean | src/bullmq/processor.js:112-113 | what comes out is one line without breaks or control characters, no longer than what went in; clean text, and only that, is unchanged |
| JobLog.OneLineGoesByCharacter | src/bullmq/processor.js:112-113 | a break, `\r\n` being one, is shown as one sign, a control character dropped, every other character kept in its place |
| JobLog.UserlandRow | src/bullmq/processor.js:182-198 | a row is one clean line of at most 1024 characters |
| JobLog.WhatFitsIsShown | src/bullmq/processor.js:182-198 | level unless info, message, data, attempt from the second on, and partition: if all of it is a clean line that fits, it is the row |
| JobLog.BoundedRowIsTheFullRowIff | src/bullmq/processor.js:174-198 | with nothing in the line to drop, the row is the one that writing all of the data would give, but for a message that fills it exactly |

## Left out

- Coordination: a replan, a repin and a retry from the start, which discard a generation before it is rolled up; a retry of a pass is one step, taken while no coordinator is between finding that pass drained and rolling it up.
- Coordination: the coordinator's loop is modelled as the steps it takes, not as a method; its lock is any number of coordinators, each as stale as it likes. Registration, removal, requirements (the blocked status), reopening and step mode are not part of the machine.
- Completion.PassesAreBounded: without a retry, because a retry of a closed pass may plan one pass more than maxPasses.
- Completion.CompletedIsFinal: does not cover a reopen, which takes a completed state back to running, because reopening is not part of the machine.
- KeysetPass.OnePassDrains: the collection is read by `_id` in one bracket; brackets, and ids a server does not compare, are left out.
- LaneWrites: application writes bump the revision and revisions of one id never repeat; a collection without revisions is not covered. The shard key in a write's filter is not modelled.
- Documents: of BSON only null, numbers, text and values whose equality the code cannot judge; not-a-number and nested documents are left out.
- TransactionalBatch.Run: the branch for a lone conflict steps past its document without closing the partition, even where a draining cursor ended; unknown commit outcomes are left to the driver.
- HashedDrain: the application does not write during the scan; other lanes may.
- Controls.ProcessPartition: how many documents have failed in the whole background migration is the store's answer in each turn, not counted in the model; the wait of the throttle before a batch changes nothing the loop decides on and is left out.
- LaneCaps.LaneCapsHold: for fixed maxParallel and shardConcurrency; a repin can change them.
- BackgroundStore: one background migration. Document errors, owner, host and timestamps other than a lease's renewal are left out.
- BackgroundStore.BackgroundStore.RenewLease: does not model that a renewal shortly after another answers true without asking the server, because the lane's own clock is not part of the store.
- Store: a server lists the union of two lists of bad ids in an order of its own, which decides what a cut keeps; here the older ids come first. `KeysetPass` leaves the choice open.
- BackgroundStore: reading totals and progress are functions (`Totals.TotalsOf`, `RollUps.Progress`), not methods of the object: the server adds them up.
- IdRanges: the planner around `sliceBracket` — counts, brackets present, the rounding of shares — and the server's comparison of ids; one bracket's ids are numbers.
- ShardSplits.SplitSampled: sampled tuples lie strictly inside the run by their first field; documents that store MinKey or MaxKey as a shard key are left out, as are the sizes asked of the server.
- ShardPlan.Plan: an estimate is rounded from exact fractions; floating point could order two nearly equal slices differently. The epoch, the method and degraded labels are left out.
- Adaptive: every call reads the clock once; the saved state is whole numbers.
- Rollback: names are compared by one order; JavaScript and the server order some characters outside the basic plane differently. Job queues, retries and forced runs are left out.
- JobIds: lone surrogates in names; the sizes the queue accepts.
- JobLog: text is a sequence of characters; cutting between the halves of a surrogate pair, and redaction, are left out. Reading the entries of a value is assumed not to change it.
- Replication-lag throttling and its probe: they only delay a batch. Dry runs: they write nothing.
- Drift polls, watchers and wait functions: they read the state and report it, and no step of the protocol depends on them.
- The command line, telemetry and error texts: they present results of what is modelled.
