# Migration adapters in Dafny

A Dafny model of the parts of a content migration toolkit in which most can go wrong between
machines, with proofs about every run of them. Each module follows one component.

| module | component |
|---|---|
| `Basics` | options, results, insertion-ordered sets, counting facts |
| `Chunking` | splitting product drafts into provider requests |
| `ImportOutcomes` | import outcomes, their journal values and the resume decision |
| `ImportPolling`, `ImportSubmission`, `ImportAwait` | one run: submit, poll to a deadline, await |
| `ImportBatch`, `ImportDriver` | the driver of one batch, and its refinement into a run of the machine |
| `ImportRuns`, `ImportTogether`, `ImportHistories` | any number of runs over one journal and provider |
| `ImportScenarios`, `ImportDoubleSubmission`, `ImportExactBatches` | runs the driver can make; how a key is submitted twice; exactly which batches rule that out |
| `NullCodec` | keeping nulls through a provider that drops them |
| `CustomObjects`, `RunRecords`, `RunUpdates` | versioned objects; run records and projections under any interleaving; what one call leaves |
| `ItemListing`, `ItemSummary` | keyset pages over a changing store; the paged summary |
| `DurableStart`, `DurableProgress` | locks around starting a durable plan; how far a start gets |
| `RunWorkflow` | the durable run workflow and its finalizers |
| `RollbackScope`, `CursorGuard`, `TuiLifecycle` | dependency worklist, listing cursors, render sessions |

Keys, ids and container names are only compared and asked whether they are blank, so they are
modelled as `Name`; item keys, which are ordered, as points of a linear order. An asynchronous call is
a step with a result; what the provider, the network, the clock or the user does is a parameter (a
function of the round, a choice, an event), so every theorem holds for all of them. A provider request
is one atomic step and clients interleave freely.

`dafny verify dfyconfig.toml` checks everything.

## What the proofs found

- Import runs: that no key is ever submitted twice, and that awaiting never fails with a contract
  error, does not hold for every way of batching. A stale candidate operation of one key can answer
  for the key while its newer operation is still running. `ImportDoubleSubmission.DoubleSubmissionIsReachable`
  builds the runs. Both hold for all runs whose batches keep candidate groups together
  (`ImportHistories.TogetherHistoryIsSafe`, `ImportHistories.TogetherHistoryAwaitEnds`). The caller can
  check that on journal and batch before a run, and it is exact: after any such runs, a batch that
  splits a group, unless the driver's own checks refuse it, can be continued to either failure by
  runs the driver can make (`ImportExactBatches.BatchingIsExact`).
- Null codec: the round trip holds exactly for objects without a top-level `nullFields` key.
- Orphan pages: with a limit below one the first page is empty and has no next identity although
  orphans remain.
- Listing cursors: a consumer that starts over forgets the cursors of the others, which a listing may
  then lead in a circle; without that no chain of returned cursors ever repeats.
- Run workflow: a cancel that throws is followed by a fail. In a run that rolls back orphans, a
  definition that was scanned but not reconciled is reported as skipped when the run fails.
- Render sessions: a renderer that reports an error before its session is handed over can leave two
  sessions alive, exactly when that session is the awaited one and nothing has been recovered yet; the
  source defers such reports.

## Model

| member | source | states |
|---|---|---|
| Chunking.ChunkResources | packages/commercetools/src/import-api/product-drafts.ts:570-627 | Splits the resources in order into non-empty chunks of at most 20 that fit the byte limit; fails exactly when one resource alone is too large; no other valid split has fewer chunks. |
| Chunking.GreedyIsLeast | packages/commercetools/src/import-api/product-drafts.ts:588-624 | A split that closes a chunk only when the next resource does not fit has at most as many chunks as any valid split. |
| Chunking.GreedyStaysAhead | packages/commercetools/src/import-api/product-drafts.ts:588-624 | After any number of chunks the greedy split has covered at least as many resources as any other valid split. |
| Chunking.GreedySplitIsUnique | packages/commercetools/src/import-api/product-drafts.ts:588-624 | The split is determined by the resources and the limit. |
| ImportOutcomes.OutcomeFromOperation | packages/commercetools/src/import-api/product-drafts.ts:970-1037 | An operation has an outcome exactly when its state is known and, for an import, its version is present; the outcome is imported, failed or pending as its state is. |
| ImportOutcomes.OutcomeKeepsOperation | packages/commercetools/src/import-api/product-drafts.ts:970-1037 | Operations with one outcome are one operation in one state of one container; only a pending outcome forgets the resource version. |
| ImportOutcomes.JournaledOutcomeResumes | packages/commercetools/src/import-api/product-drafts.ts:357-490 | A journaled outcome allows a new submission only after a finished operation or a definite rejection, is awaited with its own candidate group, and is otherwise blocked unchanged; a foreign journal entry does not decode. |
| ImportPolling.OutcomesFromKnownOperations | packages/commercetools/src/import-api/product-drafts.ts:1039-1068 | Reports one outcome per key of the known operations, and fails exactly when two of them share a key or one is unreadable. |
| ImportPolling.PollOperations | packages/commercetools/src/import-api/product-drafts.ts:1121-1264 | Makes at least one and at most ceil(timeout / interval) + 1 rounds when the clock advances by each sleep; succeeds exactly when every answer correlates and, once all operations are settled, every key is covered; the answer has the requested keys as domain and lists for each unanswered key its missing candidates. |
| ImportPolling.PollRound | packages/commercetools/src/import-api/product-drafts.ts:909-968 | Accepts a round exactly when each successful answer names the requested operation, the container and an allowed key; failed requests are noted. |
| ImportPolling.PollOnce | packages/commercetools/src/import-api/product-drafts.ts:1129-1262 | One round either ends polling with that answer or leaves exactly the operations that are still unsettled to poll. |
| ImportPolling.PollingEndsOnce | packages/commercetools/src/import-api/product-drafts.ts:1121-1264 | The provider's answers and the clock decide after which round polling ends and whether in an error. |
| ImportPolling.RoundBoundReachesTimeout | packages/commercetools/src/import-api/product-drafts.ts:1121-1264 | The bound is enough full intervals to reach the timeout. |
| ImportPolling.KnownIsCorrelated | packages/commercetools/src/import-api/product-drafts.ts:909-968 | After any accepted rounds each known operation was requested, names itself and has an allowed key. |
| ImportPolling.LastAnswerIsKnown | packages/commercetools/src/import-api/product-drafts.ts:1138-1187 | While its answers leave an operation open it is polled every round: what is known of it is the last answer, and it is in error exactly when the last poll was. |
| ImportPolling.SettledAnswerStays | packages/commercetools/src/import-api/product-drafts.ts:1138-1187 | The first settled answer of an operation is the last one taken, and leaves no error. |
| ImportPolling.TimeoutIs | packages/commercetools/src/import-api/product-drafts.ts:1207-1257 | A key not seen by the deadline is left as accepted, naming exactly the unseen operations whose last poll failed. |
| ImportSubmission.ValidateImportInput | packages/commercetools/src/import-api/product-drafts.ts:629-713 | Accepts exactly non-empty input with distinct, non-blank keys, a positive limit within the provider's, positive concurrency, valid polling options and no oversized resource. |
| ImportSubmission.ValidateSubmissionResponse | packages/commercetools/src/import-api/product-drafts.ts:835-892 | Accepts exactly responses that name one usable, non-blank, new and distinct operation per resource. |
| ImportSubmission.GroupPigeonhole | packages/commercetools/src/import-api/product-drafts.ts:1207-1257 | If a key of a chunk has no known operation then some operation of the chunk is unknown: as many operations as keys, and no two with one key. |
| ImportSubmission.SettledIsCovered | packages/commercetools/src/import-api/product-drafts.ts:1188-1205 | For any provider, once all operations of accepted chunks are settled every submitted key is covered. |
| ImportSubmission.TimeoutIsAwaitable | packages/commercetools/src/import-api/product-drafts.ts:1207-1257 | For any provider, each key that times out gets a candidate group with at least one operation and with the key itself, which a later await accepts. |
| ImportSubmission.TakeAnswer | packages/commercetools/src/import-api/product-drafts.ts:1369-1404 | Taking in one chunk's answer fails exactly when no list of new operations matches it; otherwise it adds one candidate group, or one failure per key, and keeps all earlier ones. |
| ImportSubmission.SubmitAndAwait | packages/commercetools/src/import-api/product-drafts.ts:1306-1423 | Fails exactly for invalid input, a response that is refused after those before it, or polling that fails, never with the coverage error, and within the round bound; a result has exactly the submitted keys: polled keys answered from what was seen, and each key of a failed chunk not accepted exactly when its chunk was definitely rejected, of unknown acceptance exactly when it was not, with its chunk's keys and message. |
| ImportSubmission.FailuresAreRecorded | packages/commercetools/src/import-api/product-drafts.ts:1266-1290 | Whatever the order of the chunks, every key of a failed chunk is left with that chunk's failure, definite or of unknown acceptance as the provider's error says. |
| ImportAwait.ValidateAwaitInput | packages/commercetools/src/import-api/product-drafts.ts:715-833 | Accepts exactly non-empty lists of awaitable groups with distinct keys and valid options, and builds the request in which each operation may be any key of a group that lists it. |
| ImportAwait.ValidateCandidate | packages/commercetools/src/import-api/product-drafts.ts:744-805 | Accepts exactly awaitable groups: non-empty, distinct, non-blank operations, distinct non-blank keys, among them its own. |
| ImportAwait.AwaitQueryAsks | packages/commercetools/src/import-api/product-drafts.ts:726-831 | The request built one candidate at a time asks for exactly the groups' keys and operations, in any order of insertion. |
| ImportAwait.AwaitOperations | packages/commercetools/src/import-api/product-drafts.ts:1425-1444 | An invalid request is refused without polling; a valid one polls, and a result has exactly the requested keys. |
| ImportBatch.ProcessBatch | packages/commercetools/examples/product-import-batch-migration.ts:221-327 | For any provider, a batch that ends without a contract error settles every item it could decode with its blocked, awaited or submitted outcome, so the missing-outcome throw is unreachable; the outcomes are those of the polls and submissions made; it fails exactly when awaiting or submitting fails. |
| ImportBatch.SubmitRecordsDoubts | packages/commercetools/src/import-api/sdk.ts:74-90 | The keys a submission leaves with unknown acceptance are exactly those of the chunks that failed without a definite rejection. |
| ImportBatch.OpenOutcomeResumes | packages/commercetools/src/import-api/product-drafts.ts:411-490 | Each pending or timed-out outcome of a submission resumes, once journaled, as an await of a group with its own key. |
| ImportBatch.OpenOutcomesAreAwaited | packages/commercetools/src/import-api/product-drafts.ts:715-833 | Any open outcomes of a submission together form a valid await request on the next run. |
| ImportBatch.SettledBatchIsRun | packages/commercetools/examples/product-import-batch-migration.ts:221-327 | With a provider that names true keys and creates one operation per key, a settled batch is one run of the multi-run machine. |
| ImportBatch.TruthfulPollsAreKnown | packages/commercetools/src/import-api/product-drafts.ts:1129-1187 | Truthful answers in every polling round leave truthful knowledge. |
| ImportDriver.DrivesOnce | packages/commercetools/examples/product-import-batch-migration.ts:221-327 | The answers and clocks of a run decide how it ends: when it can end well it does not fail, and it settles the batch with the same outcomes. |
| ImportDriver.DriverRunIsRun | packages/commercetools/examples/product-import-batch-migration.ts:221-327 | A settled run of the driver, polled truthfully and with one new operation per key of each accepted chunk, is a run of the machine; so what holds of all runs holds of the driver's. |
| ImportDriver.DriverRunIsAccepted | packages/commercetools/src/import-api/product-drafts.ts:629-713 | Only a batch that passes the checks made of what it awaits and submits is settled. |
| ImportDriver.ServedSubmissionSucceeds | packages/commercetools/src/import-api/product-drafts.ts:1306-1423 | A valid submission to a provider that creates one operation per key and answers truthfully never fails, whichever requests get through; so a failing run has failed before submitting. |
| ImportDriver.TruthfulPollingSucceeds | packages/commercetools/src/import-api/product-drafts.ts:1121-1264 | When all truthful knowledge answers a request, truthful polling never fails it, however many rounds it takes. |
| ImportScenarios.AwaitSucceedsExactly | packages/commercetools/src/import-api/product-drafts.ts:1425-1444 | Awaiting a batch never fails, in any environment that answers truthfully, exactly when it awaits nothing, or the options are valid and no two awaited operations belong to one key. |
| ImportScenarios.CancellingRun | packages/commercetools/examples/product-import-batch-migration.ts:221-327 | From any journal whose entries are true and any batch the checks accept, the driver can make a run that sees one listed operation cancelled and has every submission rejected. |
| ImportScenarios.AcceptingRun | packages/commercetools/examples/product-import-batch-migration.ts:221-327 | With valid options the driver can make a run that submits a batch fitting one request, has it accepted, and reaches the deadline without seeing its operations. |
| ImportRuns.RunKeepsJournalTrue | packages/commercetools/examples/product-import-batch-migration.ts:224-311 | Whatever the batch, a run leaves every awaiting entry listing its true operation, with the true key of each listed operation in the group. |
| ImportRuns.AwaitIsCorrelatedAndCovered | packages/commercetools/src/import-api/product-drafts.ts:909-968 | After any runs, awaiting any batch meets no foreign key and leaves no key uncovered. |
| ImportRuns.AwaitFailsExactlyOnSharedOwner | packages/commercetools/src/import-api/product-drafts.ts:1039-1068 | Awaiting a batch is free of contract errors for all truthful answers exactly when no two awaited operations really belong to one key (which the provider knows; what the caller can check is in ImportExactBatches). |
| ImportRuns.EntryAfter | packages/commercetools/examples/product-import-batch-migration.ts:244-311 | A run replaces the entries of awaited and submitted keys by their outcomes, returns blocked ones unchanged and touches no others. |
| ImportRuns.SafeIsAtMostOne | packages/commercetools/src/import-api/product-drafts.ts:411-467 | If every entry allows a submission only when nothing can still be running, each key has at most one unfinished or possibly accepted operation. |
| ImportTogether.RunFromSharedIsSafe | packages/commercetools/examples/product-import-batch-migration.ts:224-311 | From a journal whose candidate groups agree, any run, whatever its batch, leaves every resume decision safe. |
| ImportTogether.RunKeepsShared | packages/commercetools/examples/product-import-batch-migration.ts:224-311 | A run whose batch keeps candidate groups together keeps the groups in agreement. |
| ImportHistories.AnyHistoryKeepsJournalTrue | packages/commercetools/src/import-api/product-drafts.ts:1078-1094 | Over any number of runs every unresolved accepted key's candidate group contains its true operation, and each candidate operation's true key is in the group. |
| ImportHistories.TogetherHistoryIsSafe | packages/commercetools/src/import-api/product-drafts.ts:411-490 | Over any number of runs whose batches keep candidate groups together, each key has at most one operation that is unfinished or possibly accepted, counting every key of a chunk that failed without a definite rejection, whatever was journaled for it. |
| ImportHistories.TogetherHistoryAwaitEnds | packages/commercetools/src/import-api/product-drafts.ts:715-833 | After such runs, awaiting any batch ends without a contract error: for whatever is truthfully seen, and, with valid options, in every environment that polls truthfully. |
| ImportHistories.WholeBatchKeepsTogether | packages/commercetools/examples/product-import-batch-migration.ts:224-311 | A batch with all awaiting keys keeps groups together. |
| ImportDoubleSubmission.SplitBatchSubmitsTwice | packages/commercetools/examples/product-import-batch-migration.ts:224-311 | Two keys sharing an operation: running the first alone twice and then both, in runs the driver can make, leads to two unfinished operations of the first. |
| ImportDoubleSubmission.DoubleSubmissionIsReachable | packages/commercetools/examples/product-import-batch-migration.ts:224-311 | From an empty journal, with any valid options, any two resources that fit one request can reach such a double submission in runs the driver can make. |
| ImportExactBatches.BatchingIsExact | packages/commercetools/examples/product-import-batch-migration.ts:224-311 | After any runs that kept candidate groups together, the next batch keeps them together or is refused by the driver's own checks, which its caller sees in the journal, exactly when no later such runs of the driver can leave a key with two unfinished or possibly accepted operations, and exactly when no later await can fail on a contract error. |
| ImportExactBatches.AtMostOneExactly | packages/commercetools/examples/product-import-batch-migration.ts:224-311 | The same from any safe world with agreeing groups, for at most one operation per key. |
| ImportExactBatches.EveryAwaitSucceedsExactly | packages/commercetools/src/import-api/product-drafts.ts:715-833 | The same for awaiting without a contract error, with any valid options and batch and in every environment that polls truthfully. |
| ImportExactBatches.KeepingTogetherIsExact | packages/commercetools/examples/product-import-batch-migration.ts:224-311 | Every run the driver can make of a batch keeps the groups in agreement exactly when the batch keeps them together or is refused. |
| NullCodec.Encode | packages/commercetools/src/migration-store/custom-object-value.ts:128-152 | Strips nulls everywhere and lists each null path once, whatever the order of an object's keys. |
| NullCodec.RecordNulls | packages/commercetools/src/migration-store/custom-object-value.ts:123-155 | Non-objects are kept as they are; an object is stored stripped, with the list of its null paths. |
| NullCodec.RestoreNulls | packages/commercetools/src/migration-store/custom-object-value.ts:162-212 | The loop over decoded paths, with its failures, is the function whose laws are below. |
| NullCodec.IndexOfText | packages/commercetools/src/migration-store/custom-object-value.ts:15-15 | The canonical index pattern matches exactly the texts of numbers, each with one number (with TextOfIndex). |
| NullCodec.TextOfIndex | packages/commercetools/src/migration-store/custom-object-value.ts:131-131 | The text of an index matches the pattern and reads back as the index. |
| NullCodec.SetNullAddsOne | packages/commercetools/src/migration-store/custom-object-value.ts:174-210 | Restoring one path makes exactly that path null and changes no other null. |
| NullCodec.SetNullStrips | packages/commercetools/src/migration-store/custom-object-value.ts:174-210 | Restoring one path leaves everything but nulls and array placeholders as it was. |
| NullCodec.SetNullSucceeds | packages/commercetools/src/migration-store/custom-object-value.ts:174-202 | A null of the original can always be restored, whichever others are restored already. |
| NullCodec.StripInjective | packages/commercetools/src/migration-store/custom-object-value.ts:123-155 | A value is determined by its stripped form and its null paths. |
| NullCodec.NullPathsArePrefixFree | packages/commercetools/src/migration-store/custom-object-value.ts:128-152 | No recorded path is a proper prefix of another. |
| NullCodec.ProviderKeepsNullFree | packages/commercetools/src/testing/custom-objects.ts:104-118 | The provider keeps a value without nulls as it is. |
| NullCodec.ProviderDropsNullFields | packages/commercetools/src/testing/custom-objects.ts:104-118 | The provider drops exactly the null fields of objects, at any depth, and keeps every array as long as it was. |
| NullCodec.RoundTrip | packages/commercetools/src/migration-store/custom-object-value.ts:123-212 | Restoring what the provider keeps of a recorded object gives the object back, for nulls at any depth and paths in any order, exactly when the object has no top-level nullFields key. |
| NullCodec.RestoredIsRecorded | packages/commercetools/src/migration-store/custom-object-value.ts:123-212 | A null-free stored value that restores to v is what recording v stores, up to order and repetition of its paths. |
| CustomObjects.Post | packages/commercetools/src/testing/custom-objects.ts:311-340 | A versioned post succeeds exactly when the version matches (0: absent), and changes only its key, to the next version. |
| CustomObjects.Delete | packages/commercetools/src/testing/custom-objects.ts:388-399 | A delete succeeds exactly when the object is there with that version, and removes only it. |
| CustomObjects.Provider.HandlePost | packages/commercetools/src/testing/custom-objects.ts:311-340 | The provider's post, in place: the new map on success, nothing changed on a conflict. |
| CustomObjects.Provider.HandleGet | packages/commercetools/src/testing/custom-objects.ts:384-386 | The stored object, or not found. |
| CustomObjects.Provider.HandleDelete | packages/commercetools/src/testing/custom-objects.ts:388-399 | The provider's delete, in place. |
| RunRecords.MoveIsSound | packages/commercetools/src/migration-store/index.ts:1369-1723 | Any request of any client keeps the invariant relating records, projections and what clients hold, and histories only grow. |
| RunRecords.NoUpdateIsLost | packages/commercetools/src/migration-store/index.ts:1523-1723 | However clients interleave, each value of a run record is what the very call that wrote it, at the time it read, writes over the value just before it (what that is: RunUpdates); what a run fixes at its beginning never changes, finishedAt is written once, the status only advances; each projection is, apart from its definition status, a value its run record held, and a cancelled run's definitions are cancelled. |
| RunRecords.MoveRecordsWrites | packages/commercetools/src/migration-store/index.ts:1523-1630 | The histories hold exactly the accepted writes, each with the call of the client that made it. |
| RunRecords.AttachedExecutionStays | packages/commercetools/src/migration-store/index.ts:1523-1630 | An attached execution stays until another call attaches one, however other calls interleave. |
| RunRecords.HeldContinues | packages/migrate-sdk/src/services/migration-store.ts:138-189 | Between any two values of one run record the status never goes back and a terminal status never changes. |
| RunRecords.MoveAdvancesProjections | packages/commercetools/src/migration-store/index.ts:1369-1458 | A projection is never removed and changes only forwards within its run, or to a run that recorded the old one as predecessor. |
| RunUpdates.FirstValue | packages/commercetools/src/migration-store/index.ts:1658-1693 | The first value of a run record is that of the call that began it: its definitions, status and operation, the time of that write, no execution and no finish time. |
| RunUpdates.FinishTime | packages/commercetools/src/migration-store/index.ts:1573-1580 | A call that finishes the run leaves a finish time: the one there was, otherwise the time of that write; any other call leaves it unchanged. |
| RunUpdates.ExecutionWritten | packages/commercetools/src/migration-store/index.ts:1573-1580 | A call attaches the execution it brings and otherwise leaves the record's own. |
| RunUpdates.StatusWritten | packages/commercetools/src/migration-store/index.ts:1561-1580 | The requested status is written unless the run had ended, which keeps its status, or was being cancelled: then a success that yields to cancelling writes Cancelled and nothing brings it back to work. |
| RunUpdates.RefusesExactly | packages/commercetools/src/migration-store/index.ts:1545-1569 | A call writes nothing exactly when there is no record to update, the definitions differ, the run has ended and the call may not touch it, or a running run is asked back to queued or start-failed. |
| RunUpdates.ReadTimeIsCarried | packages/commercetools/src/migration-store/index.ts:1573-1578 | The time of a write is that of the request that read the record it writes over. |
| RunUpdates.CallAlone | packages/commercetools/src/migration-store/index.ts:1523-1723 | With no other client in between and all requests answered, a call writes nothing exactly when it refuses, and otherwise one value and then the projections: an update those that still show its run, a begin all of its definitions; each that gives way shows the new state with the status the call gives the definition, the others stay, and a new record keeps the run each projection showed. |
| RunUpdates.ReadsOneProjection | packages/commercetools/src/migration-store/index.ts:1581-1608 | However other clients interleave, an update will project exactly those of its definitions whose projection shows its run when it reads it, and a begin of a new record keeps the run each projection then shows. |
| RunUpdates.BeginShowsEverywhere | packages/commercetools/src/migration-store/index.ts:1667-1701 | A run that begins shows in the projection of each of its definitions. |
| RunUpdates.TriesFiveTimes | packages/commercetools/src/migration-store/index.ts:1610-1629 | Whatever other clients write in between, a call tries its write at most five times, reading the record again after each rejection, and then gives up. |
| ItemListing.ListItemStates | packages/commercetools/src/migration-store/index.ts:1326-1364 | Under arbitrary changes between pages: strictly increasing keys, only records some query saw, every record present throughout; the number of queries is bounded by the keys that exist. |
| ItemListing.StaticScan | packages/commercetools/src/migration-store/index.ts:1326-1364 | On an unchanging store a scan is all records in key order. |
| ItemListing.QueryItemStatePage | packages/commercetools/src/migration-store/index.ts:1050-1082 | A page decodes to its records in order, or fails on one that does not decode. |
| ItemListing.OrphansPageIs | packages/commercetools/src/migration-store/index.ts:1975-2038 | A page of orphans holds, in key order, records above the given identity not seen by the inventory run, leaves out none up to its last one, and has a next identity, its last key, exactly when it is full and more remain. |
| ItemListing.ListOrphanItemStates | packages/commercetools/src/migration-store/index.ts:1975-2038 | Returns the first limit orphans above the given identity, and a next identity exactly when the limit is at least one and more orphans remain, although records at or below that identity change meanwhile; fails exactly when one of the first limit + 1 orphans does not decode. |
| ItemListing.CollectOrphans | packages/commercetools/src/migration-store/index.ts:1975-2038 | Following the pages returns every initial orphan exactly once, in key order, although returned items change or disappear between pages, exactly when the limit is at least one or there is none; fails exactly when the limit is at least one and some initial orphan does not decode. |
| ItemSummary.ValidatePage | packages/commercetools/src/migration-store/item-state-summary.ts:43-65 | Accepts exactly pages whose count is their length, within the limit, with keys ascending from the cursor. |
| ItemSummary.TakePage | packages/commercetools/src/migration-store/item-state-summary.ts:144-159 | Counts one status page, refusing exactly the bad ones, and keeps every status either waiting at its last key or finished. |
| ItemSummary.SummarizeItemStates | packages/commercetools/src/migration-store/item-state-summary.ts:67-164 | On an unchanging store succeeds exactly when every record is valid, its counts are the tally of the listing and leave no record out, and it takes floor(n / pageSize) + 1 rounds for the largest status; always ends. |
| ItemSummary.OneRound | packages/commercetools/src/migration-store/item-state-summary.ts:92-164 | A round succeeds exactly when its request does, the first answer knows of no invalid metadata, and every pending page is good. |
| ItemSummary.SomeProviderConforms | packages/commercetools/src/migration-store/item-state-summary.ts:108-135 | Every store content has a provider that answers each query from it, so the results about unchanging stores apply to all of them. |
| ItemSummary.CountsTally | packages/commercetools/src/migration-store/item-state-summary.ts:92-164 | Counting valid records by index status tallies their listing by state status and leaves none out. |
| ItemSummary.SummaryIsTally | packages/commercetools/src/migration-store/item-state-summary.ts:92-164 | The count of a status equals the tally by state status of whatever listing a scan of the same store returned. |
| ItemSummary.CountsAddUp | packages/commercetools/src/migration-store/item-state-summary.ts:92-164 | The four counts sum to the number of records. |
| DurableStart.MoveIsSound | packages/workflow-sdk/src/workflow-sdk-migration-executable.ts:268-519 | Any step of any start keeps every held lock stored unchanged and every stored lock held by its start. |
| DurableStart.RunsExcludeEachOther | packages/workflow-sdk/src/workflow-sdk-migration-executable.ts:437-519 | Two runs whose scopes share a definition never run at the same time. |
| DurableStart.OverLeavesOnlyFailures | packages/workflow-sdk/src/workflow-sdk-migration-executable.ts:268-351 | A start that is over has left in the store exactly the locks it could not release. |
| DurableStart.OverLeavesNothing | packages/workflow-sdk/src/workflow-sdk-migration-executable.ts:268-351 | However other starts interleave, a start whose release requests get through has left none of its locks once it is over, whichever stage it failed at. |
| DurableStart.LocksExcludeEachOther | packages/commercetools/src/migration-store/index.ts:2149-2176 | At no time, acquiring, running, finishing or releasing, do two starts hold a lock of one definition. |
| DurableStart.AttachKeepsLocks | packages/workflow-sdk/src/workflow-sdk-migration-executable.ts:509-513 | Whether or not attaching succeeds, every lock of the scope is stored unchanged from before it until the workflow itself finishes. |
| DurableProgress.AcceptedExactly | packages/workflow-sdk/src/workflow-sdk-migration-executable.ts:437-519 | However starts interleave, the workflow has accepted a plan exactly when each request of its start got through: the lock of each definition of the scope, preflight, envelope, queueing and the workflow start. |
| DurableProgress.FailedOnlyReleases | packages/workflow-sdk/src/workflow-sdk-migration-executable.ts:329-351 | A start with a failed request is from then on only marked as failed, when it was the workflow start, and released, for the reason that failed first. |
| DurableProgress.GoesOnInOrder | packages/workflow-sdk/src/workflow-sdk-migration-executable.ts:437-508 | While all requests get through, the next one is the one its place in the order says. |
| DurableProgress.WithdrawingOnlyRemoves | packages/workflow-sdk/src/workflow-sdk-migration-executable.ts:268-351 | A start that failed, or whose workflow finished, adds and changes no lock of its own. |
| DurableProgress.EveryStartEnds | packages/workflow-sdk/src/workflow-sdk-migration-executable.ts:268-519 | However starts interleave and whatever fails, a start is over after three requests per definition and seven more. |
| DurableStart.AloneIsMoves | packages/workflow-sdk/src/workflow-sdk-migration-executable.ts:437-519 | The steps of a start with no other client in between are moves of the machine. |
| DurableStart.OthersLocksAreUntouched | packages/commercetools/src/migration-store/index.ts:2232-2263 | No step of a start changes or removes a lock another start holds. |
| DurableStart.AcquireLocks | packages/workflow-sdk/src/workflow-sdk-migration-executable.ts:305-327 | Acquires the whole scope exactly when its definitions are distinct and unlocked and every request gets through; otherwise adds nothing but the locks it could not release again; the machine's own steps with the same answers. |
| DurableStart.ReleaseLocks | packages/workflow-sdk/src/workflow-sdk-migration-executable.ts:268-303 | Releases in reverse order past failures, leaving and reporting exactly the locks whose requests failed; the machine's own steps with the same answers. |
| DurableStart.StartDurablePlan | packages/workflow-sdk/src/workflow-sdk-migration-executable.ts:437-519 | The workflow runs exactly when the scope is acquirable and every stage succeeds; it then holds a lock for each definition of the scope, even if attaching fails; otherwise, with working releases, the store is left as it was. With the same answers the machine takes the same store to the same locks, to a running start exactly when the plan is accepted, and otherwise to one that is over for the first thing that failed. |
| RunWorkflow.ScanAll | packages/workflow-sdk/src/migration-execution-workflow.ts:168-202 | Scans definitions in order until one is cancelled or throws, with their summaries. |
| RunWorkflow.ReconcileAll | packages/workflow-sdk/src/migration-execution-workflow.ts:95-150 | Reconciles from the last definition back, merging counts in place, until one is cancelled or throws. |
| RunWorkflow.RunMigrationExecutionWorkflow | packages/workflow-sdk/src/migration-execution-workflow.ts:152-247 | Ends where the steps say, having made exactly the calls of that ending in order, and then the finalizer calls, which report exactly what the steps finished. |
| RunWorkflow.EndingIsReported | packages/workflow-sdk/src/migration-execution-workflow.ts:152-247 | A run stopped while scanning cancels or fails with the summaries of the scans before it, or none when orphans are to be rolled back; stopped while reconciling, with the definitions reconciled so far, from the last back, with their orphan counts; a cancel that throws is failed with the same; a completed run reports every definition. |
| RunWorkflow.ScanAsksInOrder | packages/workflow-sdk/src/migration-execution-workflow.ts:165-195 | Scanning asks for the windows of each definition in turn, from the first to the one that ends it. |
| RunWorkflow.OrphansAskInOrder | packages/workflow-sdk/src/migration-execution-workflow.ts:110-134 | Reconciling asks for the orphan pages of each definition in turn, from the last definition back. |
| RunWorkflow.FinalizesOnce | packages/workflow-sdk/src/migration-execution-workflow.ts:152-247 | Exactly one of complete, cancel and fail is called, last, except that both cancel and fail are when cancelling throws. |
| RunWorkflow.CompleteReportsEvery | packages/workflow-sdk/src/migration-execution-workflow.ts:152-247 | Complete receives one summary per definition in execution order; a reconciled one failed exactly when a rollback failed. |
| RunWorkflow.OrphansFollowSucceededScans | packages/workflow-sdk/src/migration-execution-workflow.ts:204-233 | Orphan pages are only requested in a rollback run, after all scans, if all succeeded. |
| RunWorkflow.ScanFailureOutcomes | packages/workflow-sdk/src/steps.ts:340-355 | A failure while scanning, or of the cancel that follows: the active definition failed, earlier ones keep their status unless orphans were to be rolled back, all others are skipped. |
| RunWorkflow.OrphanFailureOutcomes | packages/workflow-sdk/src/steps.ts:340-355 | A failure while reconciling, or of the cancel that follows: the active definition failed, those after it keep their merged status, those before it are skipped although scanned. |
| RollbackScope.DependentsOf | packages/tui/src/rollback-scope.ts:15-23 | The index lists for each definition exactly the rows that require it. |
| RollbackScope.HasOmittedDependentItems | packages/tui/src/rollback-scope.ts:11-47 | Also for cyclic requirements: fails exactly when some unselected transitive dependent has no status, otherwise answers whether some unselected transitive dependent has a positive durable count. |
| RollbackScope.ChainIsChecked | packages/tui/src/rollback-scope.ts:25-45 | When no waiting definition is unvisited, every dependency chain has been followed to its end. |
| RollbackScope.PrepareRollbackScope | packages/tui/src/rollback-scope.ts:50-84 | Only a selected-only rollback that would strand stored items is prepared again with force. |
| CursorGuard.Discovery.Read | packages/files-sdk/src/internal/object-discovery.ts:43-79 | Each read fails exactly on a listing error, a cursor that is the place itself or was read since the last start (unless this very read returned it), or invalid objects; it records the edge it followed and keeps the graph acyclic. |
| CursorGuard.ReadKeepsAcyclic | packages/files-sdk/src/internal/object-discovery.ts:43-79 | No read, first or repeated, from the start or from a saved cursor, makes a circle. |
| CursorGuard.FollowingNeverRepeats | packages/files-sdk/src/internal/object-discovery.ts:43-79 | Following returned cursors, with any retries and changing listings, never visits a place twice and so ends on finitely many cursors. |
| CursorGuard.SharedFollowingNeverRepeats | packages/files-sdk/src/internal/object-discovery.ts:43-79 | The same while other consumers read at saved cursors in between, as long as none starts over. |
| CursorGuard.RestartLeadsBack | packages/files-sdk/src/internal/object-discovery.ts:43-79 | Once another consumer has started over, a listing can lead any chain back to its beginning. |
| CursorGuard.ScanItems | packages/files-sdk/src/migration-store/persistence.ts:182-260 | Every scan ends: distinct cursors, an error on the first repeated one, otherwise each page's items once. |
| TuiLifecycle.StepIsSound | packages/tui/src/lifecycle-supervisor.ts:86-270 | Every event keeps the session invariant, as long as renderers report only once handed over. |
| TuiLifecycle.AtMostOneOfEach | packages/tui/src/lifecycle-supervisor.ts:86-270 | In every such interleaving: one live session, one recovery, one completion at most; after finishing every session ever created is destroyed; a requested exit keeps its forcing timer armed until then. |
| TuiLifecycle.StaysFinished | packages/tui/src/lifecycle-supervisor.ts:92-111 | After finishing no event revives anything, completes again or changes the exit code, and a session that arrives late is destroyed. |
| TuiLifecycle.EndsExactly | packages/tui/src/lifecycle-supervisor.ts:92-170 | From an unfinished state these events, and no others, end the supervisor, with no session left, completion resolved once and the exit code: the timer, an idle detach and an execution that settles after a request, with the requested code; a repeated forced request, with its own; a failed detach, a failed recovery and an error of the current session after recovery, with one. |
| TuiLifecycle.GoingOn | packages/tui/src/lifecycle-supervisor.ts:142-270 | What every other event leaves: a new session awaited, installed, destroyed or recovered, an exit armed with its code, or nothing changed. |
| TuiLifecycle.RequestedExitEnds | packages/tui/src/lifecycle-supervisor.ts:129-170 | Once an exit has been requested, whatever happened since, the supervisor has ended, or its timer is armed and the firing ends it with the code of the last request. |
| TuiLifecycle.EndOfTrace | packages/tui/src/lifecycle-supervisor.ts:92-170 | In every interleaving the event that ends it decides the exit code: the last requested one, or one for a failure. |
| TuiLifecycle.EarlyReportIsHarmless | packages/tui/src/lifecycle-supervisor.ts:188-270 | A report from a session not handed over yet can never lead to two live sessions, exactly unless that session is the awaited one, still being created, before any recovery. |
| TuiLifecycle.Supervisor.FinishWith | packages/tui/src/lifecycle-supervisor.ts:92-111 | Finishing once: the session destroyed, the timer cleared, the completion resolved. |
| TuiLifecycle.Supervisor.OnRendererError | packages/tui/src/lifecycle-supervisor.ts:188-228 | The handler's new state is the step whose laws are above. |
| TuiLifecycle.Supervisor.OnSessionCreated | packages/tui/src/lifecycle-supervisor.ts:230-270 | A session that arrives late is destroyed at once, otherwise installed. |
| TuiLifecycle.Supervisor.OnExitRequested | packages/tui/src/lifecycle-supervisor.ts:142-170 | An exit request, forced or graceful. |
| TuiLifecycle.Supervisor.OnTimer | packages/tui/src/lifecycle-supervisor.ts:129-140 | The firing timer ends everything with the requested code. |
| TuiLifecycle.Supervisor.OnDetached | packages/tui/src/shutdown-controller.ts:67-89 | The cached detach request ends; idle destroys once. |
| TuiLifecycle.Supervisor.OnExecutionSettled | packages/tui/src/shutdown-controller.ts:91-99 | Answers whether an exit was requested and then destroys once. |

## Left out

- Effect runtime, layers and schema decoding, HTTP, GraphQL text and JSON byte encoding: a request is an atomic step, a decoded record is a value with a flag, and a body's size is an envelope plus its elements and separators.
- The schema rewriting that gives old records null defaults: library internals.
- Update in place of the JSON tree while restoring nulls: the tree is a value, and each restored path gives a new one.
- Concurrency of chunk submissions and of polls within a round: their answers are taken in, as in the source, in chunk order and in order of ids.
- Lost acknowledgements, crashes between submitting and journaling, and breaking of definition locks: the source gives no guarantee there.
- ImportRuns.RunKeepsJournalTrue: a run that ends in a contract error is modelled as one in which operations only progress and nothing is journaled, since the driver then settles no item and, against a provider that tells the truth, has not submitted anything (ImportDriver.ServedSubmissionSucceeds).
- ImportRuns.AwaitFailsExactlyOnSharedOwner: who owns an operation is known to the provider alone; what a caller can check is stated in ImportExactBatches.BatchingIsExact.
- ImportBatch.ProcessBatch: the journal is a map from resource key to entry, so items of one batch with the same key share it.
- RunRecords.NoUpdateIsLost: validation of decoded records against each other is a request that may fail; the attempts at one projection are modelled, and only those at the run record are stated.
- RunUpdates.FirstValue: the start time of a new record is that of the request that found none; the source takes it once it has also read the projections.
- DurableStart.StartDurablePlan: marking the run as start-failed, queueing and attaching write run records, which are the subject of RunRecords; here they succeed or fail.
- DurableStart.RunsExcludeEachOther: the finished workflow's own release of its locks is taken to work lock by lock as the caller's does.
- ItemSummary.SummarizeItemStates: the provider's keys come from a finite set, without which no paged loop ends.
- RunWorkflow.RunMigrationExecutionWorkflow: traces are finite, and a completed scan returns the summary of the definition it was asked for.
- TuiLifecycle.AtMostOneOfEach: messages written to the terminal, dashboard state and signal registration are not modelled.
- Negative zero and not-a-number among JSON numbers: numbers are reals.
- The file and SQL stores, lock leases, source and destination capabilities, progress reporting, React components and command-line parsing: easy or library-bound members.
