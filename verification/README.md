# FORJD verification models

FORJD accepts end-to-end sealed telemetry, processes it with replicated workers, runs security playbooks,
exports tenant data and draws PDF reports. This project models the parts of it whose correctness depends on
interleaving, crashes or exact arithmetic, and proves what the code keeps. Check it with
`dafny verify dfyconfig.toml`.

A SQL statement or transaction is one atomic guarded step of a state machine; a step whose guard fails
changes nothing. A `Run` is any sequence of steps, so a theorem about `Run(Empty, steps)` holds for every
interleaving of live, slow, crashed and restarted workers and for any clock readings. Beside each machine a
class holds the tables as fields; its methods do the work with the loops the source has, and their contracts
give the new tables by the functions the machine steps use.

## Files

- `Prelude`, `Decimal`: options, tuple order of cursors, sums, decimal numerals.
- `StreamResults`, `ProjectionDlq`, `IngestPlane`: tables and steps of acceptance, receipts, projector and
  dead-letter retry. `IngestLog`, `IngestCursor`, `IngestReceipts`, `IngestHandover`, `IngestRuns`: one invariant
  each, and their preservation. `IngestSteps`, `IngestTheorems`, `IngestCoverage`, `IngestResults`, `IngestRetry`,
  `IngestOrphans`, `IngestOrphanRun`: what follows for runs. `IngestRules`: what each statement means for the next
  ones. `IngestTables`: the imperative tables.
- `Playbooks`, `PlaybookRuns`, `PlaybookOrder`, `PlaybookBounds`, `PlaybookStatus`, `PlaybookReports`,
  `PlaybookRules`, `PlaybookTables`, `ActionPlan`: one playbook run.
- `Exports`, `ExportRuns`, `ExportTheorems`, `ExportOrphans`, `ExportOrphanRun`, `ExportRules`, `ExportTables`: export
  jobs and their artifacts.
- `RateLimit`, `SizeAnomaly`, `Rollup`, `PdfSyntax`, `PdfObjects`, `PdfFile`, `PdfReader`, `PdfLayout`: arithmetic and
  format cores.

## Where the code falls short of its promises

- ingest.py:197-199 says a crash cannot orphan an accepted event. But lease recovery
  (ingest_processing.py:417-431) can fail a receipt on its last attempt without a dead letter, while another
  receipt moves the watermark past it. `IngestOrphanRun.OrphansHappen` gives the history;
  `IngestTheorems.NothingSilentlyDropped` states what does hold, `IngestOrphans.RescuableIffNotOrphan` says for
  every reachable state exactly which events no modelled step can save without their client, and
  `IngestOrphans.CrashOrphansExactly` which crash of a worker loses one. An operator's range replay could still
  pick such an event up; it is not modelled.
- playbooks.py:1904-1927 reads action statuses and writes the run status in two statements. With overlapping
  sessions an unfinished plan can be marked `succeeded`; the continuation worker then never picks it up, only a
  repeated request does (`PlaybookStatus.OverlapCanLie`). `PlaybookStatus.HonestExactlyWhenReadsAre` says exactly
  which reads make the status lie, `PlaybookStatus.WrongReadWasOvertaken` that such a read takes another session
  that overtook the reader, and `PlaybookStatus.SucceededMeansComplete` that it never happens while sessions do
  not overlap.
- exports.py:815-818 cleans up after a lost lease, but a worker that lost its lease and then crashes leaves an
  object that nothing removes (`ExportOrphanRun.OrphansHappen`). `ExportOrphans.CoveredExactlyWhenSafe` names
  exactly the steps that create orphans; none of them is a step of a lease holder
  (`ExportOrphans.NoOrphanArtifacts`).

## Assumptions

Hashes and fingerprints are injective; generated UUIDs are fresh; a workflow id has one fixed projection name; one
worker id works serially; each statement is atomic and its outcome is seen by its caller; the limiter's and the
export table's clocks do not run backwards. Dead-letter rows, receipts and export jobs are not deleted.

## Model

| member | source | states |
|---|---|---|
| StreamResults.UpsertStreamResults | backend/app/services/projections.py:289-389 | a batch is written iff every row is bound to the accepted tenants and events, and then the last row of every key stands in the table as it said and every other key is untouched; otherwise the error names a real offender and nothing is written |
| StreamResults.ApplyLookup | backend/app/services/projections.py:355-387 | after a batch exactly its keys hold their last row's value and every other key is untouched |
| StreamResults.ExactlyOnceResults | backend/app/services/projections.py:289-389 | running batches with disjoint keys any number of times in any order leaves the same table as long as the same batches ran |
| StreamResults.ReapplyIsNoOp | backend/app/services/projections.py:366-387 | repeating a batch after an unrelated one changes nothing |
| StreamResults.SourceKeysAreInjective | backend/app/services/projections.py:67-111 | a consequence of the assumption that the key hash is injective: two rows share a key iff tenant, projection, version, workflow and event agree, and so do detector and rule, each taken from features, else metadata, else the row, else the default |
| StreamResults.AggregateKeysAreInjective | backend/app/services/projections.py:94-111 | under the same assumption two aggregate rows share a key iff they are of one kind and cover the same events under one contract, and without input events also agree in content |
| StreamResults.DistinctRowsSurvive | backend/app/services/projections.py:355-387 | of a batch whose rows differ in tenant, event, or a detector or rule that both name, every row survives under its own key with what it said |
| ProjectionDlq.EnqueueAllKeeps | backend/app/services/projections.py:130-190 | enqueueing keeps at most one open row per key, loses no row, resolves none, and adds rows for exactly the given events |
| ProjectionDlq.EnqueueAllOpens | backend/app/services/projections.py:151-172 | afterwards every key has an open row |
| ProjectionDlq.EnqueueIsDue | backend/app/services/projections.py:151-172 | the open row of an enqueued key is due no later than now, a new one can be taken exactly from now on, an existing one keeps everything else, and no other row changes |
| ProjectionDlq.RetryDelayDoubles | backend/app/services/replay.py:40-42 | the delay is 30 seconds, doubles per attempt, and is an hour from the eighth attempt on |
| ProjectionDlq.ResolveAllKeeps | backend/app/services/projections.py:205-223 | bulk resolution closes only open rows of the given keys and loses none |
| IngestLog.StageKeeps | backend/app/services/ingest.py:487-600 | inserting or recognising one event keeps lanes strictly ordered, ids and client ids unique, and open transactions apart |
| IngestLog.ExtendGood | backend/app/services/ingest.py:530-541 | the stamp rule puts an insert after every visible event of its lane whatever the clock reads |
| IngestLog.SomeAcceptorIsNotBlocked | backend/app/services/ingest.py:214-228 | sorted fences cannot deadlock: some open acceptance holds all its fences or can take the next at once |
| IngestCursor.SweepTablesKeeps | backend/app/services/projections.py:643-681 | committing a page, on success or failure, keeps checkpoints stamped, the swept set behind them, and all other pages gap-free |
| IngestCursor.StagedIsAhead | backend/app/services/ingest.py:530-541 | a staged event is later than every committed event of its lane and than the lane's checkpoint |
| IngestReceipts.CommitReceiptsKeep | backend/app/services/ingest.py:275-314 | acceptance partitions its new events into receipts: each event in exactly one, each receipt of one group |
| IngestReceipts.AddReceiptsLookup | backend/app/services/ingest.py:302-314 | commit adds exactly one queued receipt per group with that group's events in order, and changes no other |
| IngestRuns.SucceedInv | backend/app/services/ingest_processing.py:657-709 | the success transaction keeps all invariants |
| IngestRuns.FailInv | backend/app/services/ingest_processing.py:554-605 | the failure transaction keeps all invariants |
| IngestRuns.SweepOkInv | backend/app/services/projections.py:625-651 | a successful page keeps all invariants |
| IngestRuns.SweepFailInv | backend/app/services/projections.py:652-681 | a failed page keeps all invariants |
| IngestRuns.StopInv | backend/app/services/ingest_processing.py:877-934 | a party may stop at any moment |
| IngestRuns.NextInv | backend/app/services/ingest_processing.py:383-735 | every step of every party keeps all invariants |
| IngestTheorems.RunPersists | backend/app/services/projections.py:445-447 | over any run events, receipts, projections and dead letters are never lost, checkpoints never move back, resolved rows stay resolved |
| IngestTheorems.NewEventsAheadOfEveryCheckpoint | backend/app/services/ingest.py:214-228 | in every reachable state each event a commit adds is strictly after its lane's checkpoint and all earlier events of the lane |
| IngestCoverage.PagesAreGapFreeAndDisjoint | backend/app/services/projections.py:575-600 | a page in flight is still exactly the lane's next range whatever committed meanwhile, none of it was swept before, and every event of the lane up to its end is in it or was covered already |
| IngestCoverage.CoverageHasNoGap | backend/app/services/projections.py:575-651 | in every reachable state each event at or behind its lane's checkpoint was in a committed page or is no later than the newest event of a completed receipt of the lane |
| IngestCoverage.ProjectorSweepsExactly | backend/app/services/projections.py:575-651 | in a lane without a completed receipt the swept events are exactly those at or behind the checkpoint |
| IngestTheorems.HandledExactlyWhenTaken | backend/app/services/projections.py:625-681 | an event is projected or dead-lettered iff a committed page or a committed transaction of its own receipt took it |
| IngestTheorems.NothingSilentlyDropped | backend/app/services/projections.py:521-735 | every accepted event is in exactly one receipt and is projected, dead-lettered, still scheduled or running, or its receipt died by lease expiry without a recorded failure; completed means projected |
| IngestTheorems.RecordedFailureHandsOver | backend/app/services/ingest_processing.py:567-597 | a receipt failed for any reason but lease expiry has handed over every event |
| IngestTheorems.FailureOpensRows | backend/app/services/ingest_processing.py:565-577 | a committed failure leaves an open dead letter for every event under the receipt's version |
| IngestTheorems.StaleForever | backend/app/services/ingest_processing.py:417-469 | a worker whose claim is no longer current never becomes current again within that job, whatever others do, including a revival that resets attempts |
| IngestTheorems.RecoveredWorkerCommitsNothing | backend/app/services/ingest_processing.py:665-708 | once recovered by lease expiry a worker's success, failure and heartbeat change no table |
| IngestTheorems.CompletedForever | backend/app/services/ingest_processing.py:383-469 | a completed receipt row is never written again |
| IngestTheorems.ExactlyOneSuccess | backend/app/services/ingest_processing.py:691-708 | a completed receipt had exactly one committed success transaction, any other none |
| IngestTheorems.DeadLetterSafety | backend/app/services/projections.py:114-224 | at most one open row per event and version; a resolved row's event was projected under that version; attempts are bounded |
| IngestTheorems.NeverReopened | backend/app/services/projections.py:166-171 | a resolved row stays resolved and keeps its key |
| IngestTheorems.RetriedAtMostMaxAttempts | backend/app/services/replay.py:335-353 | in any run a row is taken for retry at most ten times |
| IngestTheorems.LostRetrierIsPowerless | backend/app/services/replay.py:401-447 | a retrier that lost its row can never again resolve or reschedule it |
| IngestResults.StepWrites | backend/app/services/ingest_processing.py:657-709 | every step either writes its whole batch, bound to its tenant, events and version, and counts exactly those events as projected, or leaves results and projections alone |
| IngestResults.ProjectedExactlyWhenWritten | backend/app/services/ingest_processing.py:657-709 | an event counts as projected under a version iff a transaction bound to both committed |
| IngestResults.CommittedRowsAreWritten | backend/app/services/projections.py:355-387 | whatever a transaction committed is in the table right after it, the last row per key |
| IngestResults.ResultsAreTheLastWrites | backend/app/services/projections.py:355-387 | over any run the table holds exactly the keys ever written, each with what the last row written under it said |
| IngestResults.ResultsStayInScope | backend/app/services/projections.py:313-326 | whatever a processor returns, a source row in the table names an accepted event of its own tenant |
| IngestRules.NewReceiptIsDue | backend/app/services/ingest_processing.py:290-350 | a new receipt carries the projection version of its workflow, 1 by default, and can be claimed from that moment on |
| IngestRules.ClaimHolds | backend/app/services/ingest_processing.py:434-469 | a claimed row cannot be claimed by anybody and is released by recovery exactly 300 seconds later |
| IngestRules.HeartbeatExtends | backend/app/services/ingest_processing.py:472-518 | a current claim lasts exactly 300 seconds from the heartbeat; a lost one changes nothing |
| IngestRules.RecoveryReleases | backend/app/services/ingest_processing.py:417-431 | a recovered row fails on its tenth attempt and can otherwise be claimed from that moment on |
| IngestRules.FailureDelays | backend/app/services/ingest_processing.py:550-605 | a failed attempt fails the row on its tenth and otherwise delays the next claim exactly by the backoff |
| IngestRules.FailureEndsTheJob | backend/app/services/ingest_processing.py:554-605 | recording a failure always ends the worker's job, and writes nothing without the fence |
| IngestRules.WakeExpedites | backend/app/services/ingest_processing.py:383-414 | pending rows can be claimed from now on, failed ones only after a revival and then with all their attempts, others do not change |
| IngestRules.SuccessMeans | backend/app/services/ingest_processing.py:657-709 | a success writes its rows, closes exactly the free open dead letters of its events, moves its lane's checkpoint alone past all of them, and completes the receipt |
| IngestRules.PageSuccessMeans | backend/app/services/projections.py:625-651 | a successful page does the same for the events of the page |
| IngestRules.PageFailureMeans | backend/app/services/projections.py:652-681 | a failed page opens a dead letter for each of its events under its version and moves the checkpoint past them |
| IngestRules.PageIsFull | backend/app/services/projections.py:530-600 | a page has at most `limit` events, kept between 1 and 1000, and a shorter one is all the lane has after the cursor |
| IngestRules.StampIsExact | backend/app/services/ingest.py:530-541 | the stamp is the clock if that is past the lane's newest visible event, else one microsecond past that event |
| IngestRules.KnownClientDecides | backend/app/services/ingest.py:571-636 | a submission with a known client id is answered with that event if it says the same, and otherwise ends the whole request |
| IngestRules.NewClientIsInserted | backend/app/services/ingest.py:530-570 | a new one is inserted with what it said, and answered as new |
| IngestRules.CommitsUnlessOversize | backend/app/services/ingest_processing.py:241-245 | a request with a group of more than 25 new events is rolled back as a whole, any other one commits all its events |
| IngestRules.ReceiptsAreUniform | backend/app/services/ingest.py:275-314 | a receipt has at most 25 events, and all agree on tenant, workflow, content type and event type |
| IngestRules.AlikeShareAReceipt | backend/app/services/ingest.py:275-314 | new events of one acceptance that agree on those four end up in one receipt |
| IngestRetry.ExactRetryResumesEveryReceipt | backend/app/services/ingest.py:364-380 | after any further history an exact client retry inserts nothing, finds every receipt the original created, and leaves each completed, running or due now |
| IngestRetry.CoveredByRetry | backend/app/services/ingest_processing.py:355-380 | the covering lookup selects a receipt the original request created even if that request mixed known and new events |
| IngestRetry.FoundIsCovered | backend/app/services/ingest_processing.py:355-380 | the lookup selects no receipt of another workflow and none with an event the request was not answered with |
| IngestOrphans.OrphanForever | backend/app/services/ingest_processing.py:417-431 | an untaken event behind the watermark, outside any open page, whose receipt failed or lost the worker of its last attempt, is never taken by any run without a client retry of that receipt |
| IngestOrphans.RescuableIffNotOrphan | backend/app/services/ingest_processing.py:417-431 | in every reachable state an accepted event can still be projected or dead-lettered without its client iff it is not such an orphan |
| IngestOrphans.CrashOrphansExactly | backend/app/services/ingest_processing.py:417-431 | a worker that holds a receipt can still save each of its events, and its crash makes one unsavable iff it is on the last attempt and the watermark has passed the untaken event outside any open page |
| IngestOrphanRun.OrphansHappen | backend/app/services/ingest_processing.py:417-431 | a concrete history in which a receipt dies by lease expiry behind the watermark without a dead letter |
| IngestTables.GroupEvents | backend/app/services/ingest.py:275-301 | grouping keeps keys in order of first occurrence and in each group exactly its events, in order |
| IngestTables.FindExisting | backend/app/services/ingest.py:575-588 | finds the visible row with the same tenant and client id iff there is one |
| IngestTables.NextCreatedAt | backend/app/services/ingest.py:530-541 | the stamp is the clock or one past the lane's newest visible event, whichever is later |
| IngestTables.InsertEvent | backend/app/services/ingest.py:487-636 | inserts, recognises or rejects the next event exactly as the acceptance step does |
| IngestTables.AcceptRequest | backend/app/services/ingest.py:229-274 | an undisturbed request is a run of the machine that is ready to commit with one answer per event, or has rolled back |
| IngestTables.Tables.RegisterProcessingBatches | backend/app/services/ingest.py:302-314 | commit appends the staged events and registers one receipt per group, as the acceptance step does |
| IngestTables.Tables.EnqueueProjectionDlq | backend/app/services/projections.py:151-172 | afterwards the key has an open row, still only one, and no row is lost, resolved or taken from its retrier |
| IngestTables.Tables.EnqueueEvents | backend/app/services/ingest_processing.py:566-577 | the handoff loop enqueues every event of the receipt |
| IngestTables.Tables.ResolveProjectionDlqForEvents | backend/app/services/projections.py:193-224 | closes exactly the matching open rows no live retrier holds, and counts them |
| IngestTables.Tables.AdvanceCheckpoint | backend/app/services/projections.py:425-455 | the checkpoint becomes the later of old and new tuple and never moves back |
| IngestTables.Tables.AdvanceCheckpointFromMeta | backend/app/services/projections.py:459-517 | advances to the latest tuple of the events whatever their order |
| IngestTables.Tables.WakeProcessingBatches | backend/app/services/ingest_processing.py:383-414 | expedites pending and revives failed receipts, leaves running and completed ones alone |
| IngestTables.Tables.RecoverExpiredProcessingLeases | backend/app/services/ingest_processing.py:417-431 | releases or fails exactly the running receipts whose lease ran out |
| IngestTables.Tables.ClaimProcessingBatch | backend/app/services/ingest_processing.py:434-469 | claims the oldest claimable receipt among those asked for iff there is one, changes no other, nobody can claim it again before it is released, and recovery releases it after exactly 300 seconds |
| IngestTables.Tables.HeartbeatProcessingLease | backend/app/services/ingest_processing.py:472-518 | a claim that is still current keeps the row, which recovery then releases exactly from the new expiry on and nobody can claim before; a claim that is not current changes nothing |
| IngestTables.Tables.PersistProcessingFailure | backend/app/services/ingest_processing.py:554-605 | hands over all events and releases the receipt iff the fence holds, else leaves every table as it was |
| IngestTables.Tables.CompleteClaimedBatch | backend/app/services/ingest_processing.py:657-709 | iff the fence holds and the rows are in scope, the rows are in the table, the free dead letters of the events are closed, the checkpoint is past them and the receipt is completed; else nothing changes |
| IngestTables.Tables.CommitPage | backend/app/services/projections.py:625-735 | the projector's commit gives the tables of the success or the failure step: on success the rows are in the table and the free dead letters closed, on failure no result changes |
| IngestTables.Tables.TakeDlqItem | backend/app/services/replay.py:334-358 | an open, due, unleased and unexhausted row becomes the owner's alone: until the lease runs out nobody can take it and no bulk resolution closes it, afterwards it can be taken iff attempts remain |
| IngestTables.Tables.ProjectDlqItem | backend/app/services/replay.py:400-407 | the retry's upsert writes its rows, bound to the row's tenant, event and version, or nothing |
| IngestTables.Tables.FinishDlqItem | backend/app/services/replay.py:404-447 | a retrier that lost the row writes nothing and none ends a row twice; a resolved row is never taken again, a rescheduled one exactly from the end of the delay on while attempts remain |
| ActionPlan.NormalizeActionPlan | backend/app/services/playbooks.py:1997-2048 | accepts a plan iff it has at most 50 well-formed entries with distinct keys, and then normalizes each entry |
| ActionPlan.RejectedExactly | backend/app/services/playbooks.py:1997-2027 | a plan is rejected iff it has more than 50 entries, a malformed one, or two with one key |
| ActionPlan.ConfigurationIsFiltered | backend/app/services/playbooks.py:33-38 | exactly the configuration entries the action type may have are kept, with their values |
| ActionPlan.NormalizedSays | backend/app/services/playbooks.py:2019-2047 | the key is the entry's own, else its action id, else its position; the type is cut to 64 characters and the order defaults to the position |
| ActionPlan.PositionsDoNotCollide | backend/app/services/playbooks.py:2020 | entries without key and action id never collide |
| ActionPlan.ResumeSeesTheSamePlan | backend/app/services/playbooks.py:1440-1442 | normalizing the stored plan again accepts it and changes nothing, so the guarding keys never change |
| ActionPlan.BackoffBounds | backend/app/services/playbooks.py:1676-1685 | the delay lies between 5 and 300 seconds, grows with the attempt, and honours Retry-After up to the cap |
| PlaybookRules.BackoffDoubles | backend/app/services/playbooks.py:1676-1685 | the delay is 5 seconds, doubles per attempt, and is 300 seconds from the seventh attempt on |
| PlaybookRules.RetryAfterLengthens | backend/app/services/playbooks.py:1683-1685 | a Retry-After can only lengthen the delay, up to 300 seconds |
| PlaybookRules.SummaryMeans | backend/app/services/playbooks.py:1853-1870 | which run status the action statuses give: running, else retrying, else awaiting acknowledgement, else what all agree on |
| PlaybookRules.LapsedIsDueOrExhausted | backend/app/services/playbooks.py:1342-1405 | a running webhook whose lease ran out is either due or, on the fifth attempt, exhausted, never both, and otherwise neither |
| PlaybookRuns.InsertInv | backend/app/services/playbooks.py:1466-1506 | inserting the next action keeps the run invariant |
| PlaybookRuns.SettleInv | backend/app/services/playbooks.py:1575-1644 | persisting an outcome under the lease guard keeps it |
| PlaybookRuns.ClaimInv | backend/app/services/playbooks.py:1336-1390 | claiming a due retry keeps it, with a fresh attempt number |
| PlaybookRuns.FinalizeInv | backend/app/services/playbooks.py:1393-1416 | failing exhausted leases keeps it |
| PlaybookRuns.AcknowledgeInv | backend/app/services/playbooks.py:908-1004 | acknowledgement and its replay keep it |
| PlaybookRuns.NextInv | backend/app/services/playbooks.py:1419-1644 | every step of every session keeps it |
| PlaybookOrder.RowsArePlanPrefix | backend/app/services/playbooks.py:1447-1571 | with any overlapping sessions the rows are exactly a prefix of the plan, all but the last are succeeded, and at most one action is unfinished |
| PlaybookOrder.CallsFollowThePlan | backend/app/services/playbooks.py:1508-1545 | a webhook is called only when all earlier actions have succeeded, and never twice for one attempt |
| PlaybookOrder.SucceededForever | backend/app/services/playbooks.py:1604-1611 | no run loses a row or a call, lowers an attempt, or touches a succeeded action |
| PlaybookBounds.CallsBounded | backend/app/services/playbooks.py:1342-1390 | an action's webhook is called at most five times in any run, other actions never |
| PlaybookBounds.ProgressFalls | backend/app/services/playbooks.py:1342-1416 | every step that adds a row, changes a status or attempt, or calls a webhook lowers a natural measure, and no step raises it |
| PlaybookBounds.ProgressIsBounded | backend/app/services/playbooks.py:1419-1572 | a run makes at most five such steps per attempt its plan allows, whatever the interleaving |
| PlaybookReports.SucceededWasReported | backend/app/services/playbooks.py:1508-1571 | over any run a webhook action is succeeded only if a call of its recorded attempt reported success, a control action only if somebody acknowledged it as done, no other ever |
| PlaybookReports.FailedEarlyWasFinal | backend/app/services/playbooks.py:1646-1673 | a webhook fails before its fifth attempt only on a report that is neither a success nor retryable |
| PlaybookReports.RetryWasReported | backend/app/services/playbooks.py:1646-1673 | a retry is scheduled only after a retryable report of that attempt, or because an operator requeued the action |
| PlaybookReports.SucceededRunWasReported | backend/app/services/playbooks.py:1419-1572 | with sessions that do not overlap a run marked `succeeded` had every webhook delivered and every control action approved |
| PlaybookReports.SettleFollowsReport | backend/app/services/playbooks.py:1508-1571 | under the lease a report is persisted as it is: the row succeeds and the session walks on iff it says so, a retryable failure is scheduled again while attempts remain, any other fails |
| PlaybookReports.LostLeaseWritesNothing | backend/app/services/playbooks.py:1543-1547 | a session that lost its lease writes nothing and never walks on |
| PlaybookStatus.SummarizeSucceeded | backend/app/services/playbooks.py:1853-1870 | the summary is `succeeded` iff every row is |
| PlaybookStatus.HonestExactlyWhenReadsAre | backend/app/services/playbooks.py:1898-1928 | with any overlapping sessions, a run never stores nor is about to store `succeeded` for an unfinished plan iff no session reads the rows for its refresh while all are succeeded and the plan has further actions |
| PlaybookStatus.WrongReadWasOvertaken | backend/app/services/playbooks.py:1447-1571 | such a read happens only if, since the reading session opened, another one succeeded the action it was working on or had stopped at |
| PlaybookStatus.StatusWasOnceTrue | backend/app/services/playbooks.py:1904-1927 | the stored status is the initial one or the summary of the rows at some earlier moment |
| PlaybookStatus.SucceededMeansComplete | backend/app/services/playbooks.py:1419-1572 | with sessions that do not overlap and crashes anywhere, `succeeded` means every action of the stored plan succeeded |
| PlaybookStatus.OverlapCanLie | backend/app/services/playbooks.py:1904-1927 | a concrete overlapping history that marks an unfinished plan `succeeded`; the continuation worker never picks it up, but a repeated request inserts the next action |
| PlaybookTables.SummarizeActionStatuses | backend/app/services/playbooks.py:1853-1870 | the list's summary depends only on which statuses occur, with the source's priorities |
| PlaybookTables.RunTables.InsertResult | backend/app/services/playbooks.py:1466-1496 | the first row of an action is inserted at most once and keeps the rows a plan prefix; a webhook is the inserter's alone and becomes due for others exactly when its lease runs out |
| PlaybookTables.RunTables.PersistWebhookOutcome | backend/app/services/playbooks.py:1575-1644 | an outcome is persisted only under the lease and at most once per attempt; the row succeeds iff the report says so, a retryable failure with attempts left is due exactly from the end of the backoff on, any other failure never, and the rows stay a plan prefix |
| PlaybookTables.RunTables.ClaimDueWebhookRetry | backend/app/services/playbooks.py:1336-1390 | claims a due row iff there is one, with the next attempt number and a lease of 30 seconds, and changes no other; a run has at most one due row, so no order is involved |
| PlaybookTables.RunTables.FinalizeExpiredRetryLeases | backend/app/services/playbooks.py:1393-1416 | fails and reports exactly the running rows whose last lease ran out |
| PlaybookTables.RunTables.AcknowledgeAction | backend/app/services/playbooks.py:922-947 | decides an awaiting control-plane action at most once, as succeeded iff it was acknowledged as done |
| PlaybookTables.RunTables.RetryAction | backend/app/services/playbooks.py:1033-1048 | requeues a failed or waiting webhook iff attempts remain, and makes it due exactly from now on |
| PlaybookTables.RunTables.RefreshRunStatus | backend/app/services/playbooks.py:1898-1928 | without interference the written status is the summary of the rows |
| PlaybookTables.RunTables.RunAction | backend/app/services/playbooks.py:1447-1571 | one round of the executor's loop is a run of the machine; a new action lets it go on iff its webhook reported success, and it stops only at an unfinished row |
| PlaybookTables.RunTables.ExecuteRunActions | backend/app/services/playbooks.py:1419-1572 | an undisturbed executor is a run of the machine and ends `succeeded` iff the whole plan succeeded, which takes a success report of every webhook it called |
| ExportRuns.PublishKeyInv | backend/app/services/exports.py:795-818 | publishing under the lease owner guard keeps the invariants, so the publisher still has its object |
| ExportRuns.UndoKeyInv | backend/app/services/exports.py:819-829 | exception cleanup never deletes an available artifact |
| ExportRuns.ExpireDeleteInv | backend/app/services/exports.py:1185-1205 | an expiry sweep never deletes an unexpired artifact |
| ExportRuns.NextInv | backend/app/services/exports.py:608-855 | every step of every worker and sweep keeps the invariants |
| ExportTheorems.CompletedIsDownloadable | backend/app/services/exports.py:795-814 | in every reachable state a completed, unexpired job's object is stored with the recorded checksum |
| ExportTheorems.StaysDownloadable | backend/app/services/exports.py:795-814 | whatever happens afterwards, an export published with time to live `ttl` is still completed and its object stored with the recorded checksum in every state whose clock is before the expiry |
| ExportTheorems.ExpiresExactly | backend/app/services/exports.py:798-804 | a published export lapses and becomes due for the sweep exactly `ttl` seconds later |
| ExportTheorems.CompletedForever | backend/app/services/exports.py:617-661 | over any run attempts never fall, failed and expired jobs stay so, and a completed job keeps its key, checksum and expiry until it expires |
| ExportTheorems.EveryClaimHasItsOwnKey | backend/app/services/exports.py:636-661 | a claim raises the attempt number, stays within the maximum, and its key differs from every stored, recorded or carried one |
| ExportTheorems.LostWorkerOnlyDeletesStaleObjects | backend/app/services/exports.py:725-851 | a worker without the lease writes no job row and can delete only its own object or one of an earlier attempt |
| ExportRules.NewJobIsDue | backend/app/services/exports.py:427-432 | a new job that may be attempted at all can be claimed at once |
| ExportRules.ClaimHolds | backend/app/services/exports.py:636-661 | a claimed job cannot be claimed by anybody and is released by recovery exactly 300 seconds later |
| ExportRules.RenewalHolds | backend/app/services/exports.py:853-875 | a renewed lease lasts exactly 300 seconds from the renewal |
| ExportRules.RecoveryReleases | backend/app/services/exports.py:618-630 | a recovered job fails on its last attempt and can otherwise be claimed from that moment on |
| ExportRules.ReleaseDelays | backend/app/services/exports.py:830-851 | after an exception the job fails on its last attempt and can otherwise be claimed exactly after the delay; it forgets its artifact iff that one was deleted, and a failed job that still names one is due for the sweep |
| ExportRules.RetryDelayDoubles | backend/app/services/exports.py:834-837 | the delay doubles per attempt up to 2048 seconds; the cap of an hour is never reached |
| ExportRules.PostponedIsDueLater | backend/app/services/exports.py:1225-1234 | a row whose delete failed is due again exactly 300 seconds later |
| ExportRules.SweepClears | backend/app/services/exports.py:1203-1222 | an undisturbed sweep of a due row deletes its object and clears the pointer; a completed export is expired by it, a failed job stays failed |
| ExportOrphans.CoveredExactlyWhenSafe | backend/app/services/exports.py:760-851 | a run keeps every stored object covered iff each crash or failed last delete in it happens while the row still names the object and nobody is about to clear that name |
| ExportOrphans.NoOrphanArtifacts | backend/app/services/exports.py:725-851 | if no worker that lost its lease stops or fails its last delete, every stored object is named by its row or has a live worker that will publish or delete it |
| ExportOrphanRun.AbandonedForever | backend/app/services/exports.py:1185-1236 | an object that no row names and no worker or sweep knows stays stored forever |
| ExportOrphanRun.OrphansHappen | backend/app/services/exports.py:785-818 | a concrete history in which a worker that lost its lease crashes after its upload and leaves such an object |
| ExportTables.ExportTables.RecoverExpiredLeases | backend/app/services/exports.py:618-630 | the recovery update equals the recovery step |
| ExportTables.ExportTables.ClaimNext | backend/app/services/exports.py:636-661 | claims the oldest claimable job iff there is one, and changes no other |
| ExportTables.ExportTables.CleanStale | backend/app/services/exports.py:725-740 | deletes the stale object, then clears the pointer to it |
| ExportTables.ExportTables.PlanAndUpload | backend/app/services/exports.py:741-794 | records the key before the upload and renews the lease in between |
| ExportTables.ExportTables.HandleException | backend/app/services/exports.py:819-851 | one more delete, then the guarded release to failed or retry |
| ExportTables.ExportTables.ProcessClaimedJob | backend/app/services/exports.py:698-855 | an undisturbed attempt is a run of the machine and completes iff nothing raised, with its own artifact stored, and then lapses and becomes due exactly `ttl` seconds later |
| ExportTables.ExportTables.TickExportJobs | backend/app/services/exports.py:608-668 | an undisturbed tick, with the expiry sweep that ends it, is a run of the machine, and processes fewer jobs than its limit only when nothing is claimable; with a positive `ttl` what it published is still downloadable, and it expires nothing before its time |
| ExportTables.ExportTables.ExpireArtifacts | backend/app/services/exports.py:1185-1236 | an undisturbed sweep is a run of the machine over at most `limit` overdue rows, all of them if they fit |
| RateLimit.SlidingWindow.Hit | backend/app/core/rate_limit.py:31-49 | admission, count and reset equal those of a limiter that never forgets, whether or not the key expired |
| RateLimit.SlidingWindow.Forget | backend/app/core/rate_limit.py:31 | eviction leaves exactly the admissions still in the window |
| RateLimit.WindowAdmitsAtMostLimit | backend/app/core/rate_limit.py:30-49 | every half-open 60 second window admits at most `limit` requests wherever it starts |
| RateLimit.RetryIsExact | backend/app/core/rate_limit.py:33-39 | with nobody else calling, a denied request is admitted at a later moment iff the reported time has passed |
| RateLimit.RetryAfterSuffices | backend/app/core/rate_limit.py:125-135 | the Retry-After header is the least number of whole seconds that suffices |
| RateLimit.RemainingIsExact | backend/app/core/rate_limit.py:125-129 | of any number of further calls at the same moment exactly `remaining` are admitted |
| RateLimit.LapsedIsEmpty | backend/app/core/rate_limit.py:42 | key expiry never drops an entry that still counts |
| RateLimit.NoAllowanceNeverAdmits | backend/app/core/rate_limit.py:33 | with a non-positive limit no time suffices, so the retry promise needs a positive limit |
| SizeAnomaly.DetectSizeAnomalies | engine/src/pipeline.rs:238-301 | the two passes give every event the verdict of the hard limit and the population z-score |
| SizeAnomaly.VerdictSays | engine/src/pipeline.rs:263-287 | an event is anomalous iff it is too long or a spike, and the reason names the length first |
| SizeAnomaly.SpikeIsZScore | engine/src/pipeline.rs:259-265 | with std the standard deviation, a spike is an event whose absolute deviation is at least the threshold times std, if std is at least 1e-9 |
| SizeAnomaly.FewSpikes | engine/src/pipeline.rs:243-271 | at most n divided by the squared threshold of n events are spikes |
| SizeAnomaly.NoDeviationBeyond | engine/src/pipeline.rs:243-262 | no squared deviation exceeds n - 1 variances |
| SizeAnomaly.SpikePossibleExactly | engine/src/pipeline.rs:264-271 | some batch of n events has a spike iff n is at least two and at least the squared threshold plus one |
| SizeAnomaly.DefaultNeedsEightEvents | engine/src/pipeline.rs:372 | the default threshold 2.5 needs eight events, and eight can suffice |
| Rollup.ComputeRollup | engine/src/pipeline.rs:209-217 | the accumulating loop computes the rollup |
| Rollup.SlotSays | engine/src/pipeline.rs:209-217 | a tenant's slot has the number of its events, their bytes, and the length of the longest, or zero if none is longer |
| Rollup.TotalsOfBoth | backend/app/services/ingest.py:412-414 | counts and anomaly counts of a concatenation add up |
| Rollup.TotalsOfOne | backend/app/services/ingest.py:412-414 | and those of one group are its own |
| Rollup.RollupIsHomomorphism | engine/src/pipeline.rs:209-217 | rolling up a concatenation is merging the rollups |
| Rollup.OrderIsIrrelevant | engine/src/pipeline.rs:209-217 | the rollup depends only on the multiset of events |
| Rollup.MergePathways | backend/app/services/ingest.py:412-430 | the handler's accumulation is the merge of all groups' rollups, with summed counts |
| Rollup.MergeOfAnyPartition | backend/app/services/ingest.py:412-430 | merging the rollups of any partition in any order is the rollup of the whole batch |
| Rollup.MergeAssociates | backend/app/services/ingest.py:421-430 | the order in which group summaries are combined does not matter |
| Rollup.RollupConserves | engine/src/pipeline.rs:211-217 | counts and bytes over all tenants add up to those of the batch |
| Rollup.RollupTenants | engine/src/pipeline.rs:211-217 | exactly the batch's tenants appear |
| PdfObjects.NumberStructure | backend/app/services/pdf_report.py:860-866 | the running counter gives every structure role its id |
| PdfObjects.BuildObjects | backend/app/services/pdf_report.py:852-947 | the one-pass construction yields the specified object list |
| PdfObjects.NumbersArePositions | backend/app/services/pdf_report.py:852-947 | object number n is the n-th object written, for any number of pages and roles |
| PdfObjects.FixedReferences | backend/app/services/pdf_report.py:854-860 | references to the page tree, fonts, info and structure objects lead to objects of that kind |
| PdfObjects.PageReferences | backend/app/services/pdf_report.py:879-897 | page i of the tree is page object i with its own contents and the two fonts |
| PdfObjects.StructureReferences | backend/app/services/pdf_report.py:911-946 | parent tree entry and document kid for marked content m of page i are the element naming that page, content and role |
| PdfFile.WriteFile | backend/app/services/pdf_report.py:949-965 | the emitted bytes are header, objects, table and trailer, and each recorded offset is where its object starts |
| PdfFile.RenderPdfReport | backend/app/services/pdf_report.py:836-965 | the report is the file of its numbered objects, whose bytes the reader below gets back |
| PdfFile.EntryLengthExactly | backend/app/services/pdf_report.py:957-958 | a table entry has the 20 bytes section 7.5.4 of ISO 32000-1 asks for iff the offset has at most ten digits |
| PdfFile.ObjectIsAtOffset | backend/app/services/pdf_report.py:950-953 | at the n-th offset the file has the label and text of the n-th object |
| PdfSyntax.RefsAreRead | backend/app/services/pdf_report.py:869 | a list of references is read back from its text as it was written |
| PdfSyntax.TreeIsRead | backend/app/services/pdf_report.py:920-923 | a number tree is read back from its text, keys and lists |
| PdfSyntax.PiecesAreRead | backend/app/services/pdf_report.py:870-946 | an object written from fixed texts and fields is read back field by field |
| PdfReader.ReaderFindsEveryObject | backend/app/services/pdf_report.py:949-965 | a reader that starts from the bytes finds the table through startxref, reads the object count plus one, and through entry n reaches object n |
| PdfReader.ReaderReadsTrailer | backend/app/services/pdf_report.py:959-965 | after the last entry the reader reads /Size as the object count plus one, and /Root and /Info as the catalog and the information dictionary |
| PdfReader.ReaderReadsEveryStream | backend/app/services/pdf_report.py:887-891 | through the table and its /Length the reader gets the content stream of every page back byte for byte |
| PdfReader.ReaderReadsCatalog | backend/app/services/pdf_report.py:870-875 | from the bytes the reader gets the page tree and the structure root from the catalog |
| PdfReader.ReaderReadsPageTree | backend/app/services/pdf_report.py:869-877 | from the bytes the reader gets /Kids with every page id in order, and /Count with their number |
| PdfReader.ReaderReadsEveryPage | backend/app/services/pdf_report.py:878-886 | from the bytes the reader gets every page's parent, index, contents and fonts |
| PdfReader.ReaderReadsFonts | backend/app/services/pdf_report.py:893-902 | the two fonts are Helvetica and Helvetica-Bold |
| PdfReader.ReaderReadsStructure | backend/app/services/pdf_report.py:914-935 | from the bytes the reader gets the structure root's references, every parent tree entry, and the document's elements in order |
| PdfReader.ReaderReadsEveryElement | backend/app/services/pdf_report.py:935-946 | from the bytes the reader gets every element's role, document, page and marked content |
| PdfReader.ReaderFindsInfo | backend/app/services/pdf_report.py:903-910 | the entry for /Info leads to the information dictionary with all of its text |
| PdfReader.StartsAsPdf | backend/app/services/pdf_report.py:949 | the file starts with the version and a comment of four bytes above 127 |
| PdfLayout.ColumnWidths | backend/app/services/pdf_report.py:468-496 | widths add up to the available width, each is at least the minimum, longer columns are never narrower, the widths are proportional to the weights where the minimum allows, and the zero-flex branch is unreachable |
| PdfLayout.WeightIsClamped | backend/app/services/pdf_report.py:474-479 | a column weighs as much as its longest sampled text, but at least as 6 and at most as 28 characters |
| PdfLayout.NeverOverdrawn | backend/app/services/pdf_report.py:484-491 | redistribution takes exactly the overflow, no column gives more than its room, and the order of widths survives |
| PdfLayout.PaginateRows | backend/app/services/pdf_report.py:723-733 | every row lands on exactly one page in order, all pages but the last are full, and only a sole page is empty |

## Left out

- Range replay (`replay_events`): repeats the projection step over a chosen range without moving a cursor.
- Retention deletes, tenant erase and export `delete_job`: they remove rows the invariants speak about.
- Ambiguous commits, where an update succeeds but its caller sees an error.
- Authentication, tenant membership, audit inserts, health reporting and logging; a failing audit insert appears as a stop.
- Cryptography, hashing, base64, URL validation and webhook delivery: outcomes are inputs.
- Schema checks and migrations; 64-bit overflow of lengths and counts in the engine.
- Floating-point rounding and the rounded scores of the engine and the PDF layout: exact reals are used instead.
- The receipts' own dedupe key and unique-index deadlocks between acceptances that share a client id.
- Claim order in the machines: there any claimable row may be taken; the table methods claim the oldest.
- Malformed JSON, non-string configuration values and how the info dictionary is filled: taken as given.
- Rate anomalies, stream-row shaping, PDF drawing commands, theme tokens and text widths.
- IngestTables.Tables.ClaimProcessingBatch: claims one row per call, the only batch size its caller uses.
- PlaybookTables.RunTables.ExecuteRunActions: the executor without interference; interleaved sessions are in the machine.
- ExportTables.ExportTables.ProcessClaimedJob: the attempt without interference or heartbeat; interleavings are in the machine.
- PdfReader.ReaderFindsEveryObject: for files whose objects end below ten-digit offsets, beyond which entries are longer than 20 bytes.
- PdfReader.ReaderReadsTrailer: with the same proviso.
- PdfReader.ReaderReadsEveryStream: with the same proviso, as for the other readings of whole reports.
- PdfReader.ReaderReadsEveryElement: for roles without blanks, as all roles of the report are.
