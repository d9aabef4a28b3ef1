# Verified model of the delivery automation backend

A Dafny 4.11 model of the parts of the backend where a mistake spends money or writes into a shared sheet twice, with
proofs of what those parts guarantee. `dafny verify dfyconfig.toml` checks all of it.

Stored data is a value (records, tables, sheets); objects whose methods update them are classes whose methods are
proved to perform an operation on that value; the guarantees are lemmas about the operations and about every run of
them. A service call is one atomic step, because the database has a single writer.

## What is modelled

- **Queue and leases** (`QueueModel`, `QueueOperations`, `QueueControls`, `QueueServices`, `QueueProtocol`,
  `QueueUncertain`, `QueueWorstCase`, `QueueOrdering`, `Scheduling`, `SchedulingProofs`, `ScanOutcome`, `Polling`).
  Items are claimed, run, completed, paused, resumed, cancelled, retried, released, recovered after a crash, deleted
  with their task, admitted by the scheduler, by preparation and by hand. A scan matches source rows to tasks. Waiting
  for an external task renews the lease.
- **Account blocks** (`AccountSheets`, `AccountAllocation`, `AccountAssignment`, `AccountAssignmentProofs`,
  `AccountGuarantees`, `AccountValidation`, `AccountResults`, `AccountCopies`, `AccountSearch`, `AccountService`). A
  sliding window over account rows, falling back to copying a template block, then a check, a write, a read-back and
  the record of the day's CIDs. The sheet is the in-memory one.
- **Plans and forms** (`Materials`, `MaterialAnswers`, `MaterialReports`, `Plans`, `PlanServices`, `PlanChecks`,
  `PlanGuarantees`, `AssignmentPlans`). Assigned or allocated accounts are routed into a plan, validated, and frozen
  into a delivery form; materials are grouped; draft material ranges are checked.
- **Drama import** (`DramaImport`, `DramaImportRows`, `DramaImportRuns`, `DramaImportService`). A preview without
  repetitions, and confirmations guarded by the sheet's revision, with failures before and after the write. A failed
  confirmation may be recorded, undone with its transaction, or cut off halfway.
- **Sheet text and batches** (`SheetText`, `SheetTextProofs`, `SheetTextLimits`, `SheetTextRecords`, `RowBatching`).
  Annotated CSV with records of section 2 of RFC 4180 that span lines, and row writes in runs of consecutive numbers.
- **Links** (`LinkAcquisition`, `LinkVerdicts`, `FallbackChain`, `FallbackReports`; `LinkReadiness` with
  `LinkReadinessProofs`, `LinkReadinessStages`, `LinkReadinessConfigs`, `LinkReadinessRuns`, `LinkReadinessEnds`,
  `LinkReadinessCycles`, `LinkReadinessService`). Providers in turn, validation, the frozen link set, the stages that
  take a task to readiness, and the worker cycle around them, which resumes from the stored row after a failure at any
  call.
- Shared: `Basics`, `Sorting`, `Text`.

Outside answers are parameters: what an executor returns, which poll completes, what providers find, the fresh ids and
times a call uses, and the folding of names (Unicode normalisation, case and platform aliases). The theorems hold for
every choice of them. In the link readiness every call, outside or to the database, may fail at any time.

## Where the code does less than it says

Where a condition is given, it is exact and proved for all inputs; the lemma named at the end shows an input.

- A preview that succeeds is followed by PARTIAL_WRITE, not CONFIRMED, exactly when uses are recorded and the planned
  block repeats a CID: the repetition is only noticed after the sheet is written (`RepeatedCidIsNoticedLate`).
- The lease outlives a wait exactly when the smallest of heartbeat, poll interval and timeout is no longer than it;
  nothing relates the two settings (`ShortLeaseIsTakenAway`).
- A plan that passes validation is refused as a form when the drama name ends in white space
  (`TrailingSpaceIsRefusedLate`).
- A matched material configuration drops groups because a third is rounded down: with configured groups g that hold
  the materials and p projects, all are placed exactly when (p - 3) * (g / 3) >= g % 3, and with an overflowing count
  exactly when p >= 3 (`OneProjectLeavesGroupsOut`, `RoundingDownCanLeaveNothing`).
- The provider chain does not simply adopt the first provider that finds a type: a candidate that an earlier provider
  offered but did not select makes the later find ambiguous, and the run ends in manual review
  (`RejectedThenFoundIsReviewed`).
- The sheet parser follows RFC 4180 only up to line breaks: a carriage return or another separator inside a quoted
  cell is lost, and exactly those cells do not survive (`CarriageReturnIsNotReadBack`).
- The scheduler never reruns what finished, the manual enqueue revives it in place against the transition table, and
  preparation counts a rehearsal as active. Still no two unfinished items of a task ever exist.
- An item stopped with an uncertain result that is not marked safe can be taken up again after all: exactly when its
  task is deleted, or when it is cancelled from review and its task later enqueued by hand while this is its newest
  item, none is unfinished and its match is settled (`UncertainItemIsClaimedAgain`). After a deletion the next scan
  creates task and item anew (`DeletedTaskIsScannedAnew`). One that failed can only be deleted. The guard depends on
  the mark, and the link executor marks every uncertain result as safe to retry (worker_executor.py:200-207).
- Link readiness is resumable, but the worker starts from the stored row and rolls back a cycle whose first or last
  storage calls fail. What such a cycle created is lost, and only after such a loss can a later cycle create it a
  second time (`LostDramaIsCreatedAgain`). A failure inside the execution alone loses nothing.

## Model

| member | source | states |
|---|---|---|
| `QueueOperations.RecoverySplitsTheExpired` | backend/src/backend/infrastructure/database/repositories/queue_repository.py:170-229 | Crash recovery takes exactly the rows with an expired lease, splits them by whether an attempt is left, counts one attempt on each, frees them all and touches no other row |
| `QueueOperations.BuildEvents` | backend/src/backend/application/services/worker_execution.py:176-201 | The stored events begin with the outcome's own; an unsuccessful outcome always leaves an error event, a successful one adds none |
| `QueueControls.OnlyErrorsAreAdded` | backend/src/backend/application/services/worker_execution.py:176-201 | Exactly a review, a failure or an unknown status without an error event gets one more event |
| `QueueProtocol.StepsFollowTheTable` | backend/src/backend/domain/queue/state_machine.py:8-27 | Every service call, raw SQL updates included, moves every item along an edge of the transition table or not at all; the only exception is a manual enqueue reviving a finished item; an item vanishes exactly when its task is deleted, and none changes task |
| `QueueProtocol.StepShape` | backend/src/backend/infrastructure/database/repositories/queue_repository.py:94-229 | Each call moves rows one by one, keeping identity, ownership and timing, or brings in one waiting item for a task that has no unfinished one, or, when it deletes a task, drops that task's items |
| `QueueProtocol.DeleteShape` | backend/src/backend/interfaces/api/routes/tasks.py:336-368 | Deleting a task removes exactly its items and leaves every other one as it is |
| `QueueProtocol.ReadmitShape` | backend/src/backend/interfaces/api/routes/tasks.py:293-333 | A manual enqueue moves rows along the table, or lets one waiting item in for a task that has no unfinished one |
| `QueueProtocol.PrepareShape` | backend/src/backend/application/services/task_preparation_service.py:254-269 | The preparation path admits only for a task without an unfinished item, although it counts rehearsals as active |
| `QueueProtocol.ScheduleShape` | backend/src/backend/application/services/delivery_scheduler.py:102-124 | The scheduler's path moves rows along the table, or adds one new waiting item for a task that has no unfinished one |
| `QueueControls.ReadmitsOneRow` | backend/src/backend/interfaces/api/routes/tasks.py:293-333 | A manual enqueue writes one row, field by field: the newest unfinished item, if stopped, is queued from attempt 0 without owner and failure code; without an unfinished one the newest waits for the task's time from attempt 0, its failure code kept; without any a new one waits |
| `QueueControls.SchedulesOneRow` | backend/src/backend/application/services/delivery_scheduler.py:102-124 | The scheduler creates an item exactly for a task that is no rehearsal and never had one, unowned and never attempted; otherwise only the newest unfinished item, if waiting, takes over the task's release time |
| `QueueControls.SchedulingFails` | backend/src/backend/application/services/delivery_scheduler.py:102-124 | The scheduler's admission fails exactly when a task without an item is given an id in use |
| `QueueControls.PreparesOneRow` | backend/src/backend/application/services/task_preparation_service.py:254-269 | Preparation leaves the table alone exactly when some item of the task is neither completed nor cancelled, and otherwise adds one new waiting item |
| `QueueControls.EnqueueIsGuarded` | backend/src/backend/interfaces/api/routes/tasks.py:259-333 | A manual enqueue passes exactly when the match is settled and the newest unfinished item can be retried, or none is unfinished and any item is there to revive, or there is none and the new id is free; which error otherwise |
| `QueueControls.RearmsTheTask` | backend/src/backend/interfaces/api/routes/tasks.py:268-292 | A finished task waits again; a rehearsed one also loses links, drama id and configurations and starts at the first stage; any other keeps its status |
| `QueueControls.DeletesTheTask` | backend/src/backend/interfaces/api/routes/tasks.py:336-368 | Exactly the task and its items go; an unknown task is not found |
| `QueueControls.PauseIsGuarded` | backend/src/backend/application/services/task_control_service.py:46-61 | Pausing works exactly on queued items, and on items in flight for their holder; the item is paused without claim, the task counts as running, nothing else changes; which error otherwise |
| `QueueControls.CancelIsGuarded` | backend/src/backend/application/services/task_control_service.py:80-95 | Cancelling works exactly on queued, paused and reviewed items, and on items in flight for their holder; waiting and failed ones cannot be cancelled; item and task end cancelled, nothing else changes; which error otherwise |
| `QueueControls.RetryIsGuarded` | backend/src/backend/application/services/task_control_service.py:98-123 | Retrying works exactly on stopped items whose result is certain or marked safe; the item is queued from attempt 0 without owner, failure code and mark, the task is ready; which error otherwise |
| `QueueControls.OnlyTheHolderEnds` | backend/src/backend/application/services/task_control_service.py:126-144 | Completing and sending to review work exactly for the holder of an item in flight. Completed, item and task are COMPLETED and the claim and lease stay; in review both are MANUAL_REVIEW and the claim is dropped; nothing else changes; which error otherwise |
| `QueueControls.ProcessingEnds` | backend/src/backend/application/services/worker_execution.py:71-154 | For each answer of the executor, where a claimed item ends: its state, its task's status, its failure code and retry mark. A delivered task completes only in the hands of the worker, links found complete the item and set the task's own status, an exception is a review without a code, an unknown status undoes everything |
| `QueueControls.ProcessingSkips` | backend/src/backend/application/services/worker_execution.py:71-82 | An item that is not claimed is skipped without a change; without its row or its task it is not found |
| `QueueControls.StaleCopyIsProcessed` | backend/src/backend/application/services/worker_execution.py:71-154 | With a stale copy the row ends where the copy's row would have ended; a row that is gone is not found |
| `QueueControls.TableByTarget` | backend/src/backend/domain/queue/state_machine.py:8-46 | The table by where a move leads: from which states each can be entered, nothing entering the waiting one; which states count as unfinished |
| `QueueControls.SweepsRowByRow` | backend/src/backend/infrastructure/database/repositories/queue_repository.py:170-229 | Release and recovery row by row: a due waiting item is queued; one in flight with an expired lease goes to the queue or, out of attempts, to review, freed and counted; every other row stays |
| `QueueControls.HoldsRowByRow` | backend/src/backend/infrastructure/database/repositories/queue_repository.py:94-168 | A claim writes one queued row that none precedes by priority, release time and id, owner and lease included; a renewal changes the holder's lease only; a release queues the holder's row without claim |
| `QueueControls.ResumeUndoesPause` | backend/src/backend/application/services/task_control_service.py:46-77 | Resuming after pausing gives a queued item back as it was, and one in flight back to the queue without its claim |
| `QueueControls.ResumeIsGuarded` | backend/src/backend/application/services/task_control_service.py:64-77 | Resuming works exactly on paused items; the item is queued, its task is ready, nothing else changes; which error otherwise |
| `QueueControls.ReleaseUndoesClaim` | backend/src/backend/infrastructure/database/repositories/queue_repository.py:94-168 | Releasing a row just claimed restores the whole table |
| `QueueUncertain.ParkedStep` | backend/src/backend/application/services/task_control_service.py:80-123 | Every step exactly: an item stopped with an uncertain result goes with its task, is cancelled from review, and otherwise stays as it is; a cancelled one is revived when the manual enqueue finds the task with its match settled, without an unfinished item and this as its newest, and otherwise stays as it is |
| `QueueUncertain.KeptExactlyUntilReleased` | backend/src/backend/application/services/task_control_service.py:98-123 | Over every run of calls: an item stopped with an uncertain result that is not safe to retry has its row, as it was or cancelled, at every moment, if and only if its task is not deleted and no cancellation from review is followed by a manual enqueue that meets its guard |
| `QueueUncertain.FailedIsNeverReleased` | backend/src/backend/domain/queue/state_machine.py:8-27 | One that failed keeps its row unchanged at every moment of every run if and only if its task is not deleted: it cannot even be cancelled |
| `QueueUncertain.UncertainItemIsClaimedAgain` | backend/src/backend/interfaces/api/routes/tasks.py:313-321 | A run that goes around the guard: the execution ends uncertain; cancelled, enqueued by hand, released and claimed, the item is in a worker's hands with its failure code still uncertain |
| `QueueUncertain.DeletedTaskIsScannedAnew` | backend/src/backend/interfaces/api/routes/tasks.py:336-368 | The other way around it: the task is deleted, and the next scan gives the same source row a new task with a new waiting item |
| `QueueProtocol.RunKeepsInv` | backend/src/backend/application/services/task_control_service.py:46-144 | Over every run of calls in any order: at most one unfinished item per task; waiting, queued and paused items have no owner and no lease, claimed and running ones have both; only waiting items lie in the future |
| `QueueProtocol.EveryReachableDatabase` | backend/src/backend/interfaces/api/routes/tasks.py:293-333 | The same for everything reachable from an empty database, with three admission paths that each test differently |
| `QueueProtocol.AutomaticRunsTerminate` | backend/src/backend/application/services/queue_cycle.py:12-36 | Without an operator an item's state changes are bounded; from attempt 0 by 1 + 3 * (max attempts + 1) |
| `QueueWorstCase.BoundIsReached` | backend/src/backend/infrastructure/database/repositories/queue_repository.py:170-229 | For every number of attempts an automatic run reaches that bound: a worker that crashes each time |
| `QueueOrdering.ClaimingDrainsInOrder` | backend/src/backend/application/services/queue_service.py:26-30 | k claims in a row return exactly what the queue view shows for k, in its order, each to the worker that asked, and leave every other row unchanged |
| `QueueServices.EnqueueWhenReady` | backend/src/backend/application/services/queue_service.py:12-23 | Exactly the waiting items that are due come back, queued, each behind the copies of the due items before it |
| `QueueServices.Database.ListByTask` | backend/src/backend/infrastructure/database/repositories/queue_repository.py:79-92 | All rows of a task once each, newest first |
| `QueueServices.Database.ClaimNext` | backend/src/backend/infrastructure/database/repositories/queue_repository.py:94-137 | The queued row first by priority, release time and id is claimed for the worker with a fresh lease; nothing else changes |
| `QueueServices.Database.FindExpired` | backend/src/backend/infrastructure/database/repositories/queue_repository.py:139-148 | The rows found are exactly those that a recovery at this moment changes, whatever its number of attempts |
| `QueueServices.Database.ReleaseClaimed` | backend/src/backend/infrastructure/database/repositories/queue_repository.py:150-168 | Only the holder of an in-flight row gives it back; anyone else changes nothing |
| `QueueServices.Database.RecoverExpired` | backend/src/backend/infrastructure/database/repositories/queue_repository.py:170-229 | The two statements together perform the split of all expired rows, though the second no longer sees the first one's rows |
| `QueueServices.Database.AdvanceQueue` | backend/src/backend/application/services/queue_cycle.py:12-36 | Admits every due item, then claims the first of all queued ones |
| `QueueServices.Database.PauseTask` | backend/src/backend/application/services/task_control_service.py:46-61 | Pauses what the table allows and the caller may stop, freeing it; otherwise an error and no change |
| `QueueServices.Database.ResumeTask` | backend/src/backend/application/services/task_control_service.py:64-77 | Only a paused item goes back to the queue |
| `QueueServices.Database.CancelTask` | backend/src/backend/application/services/task_control_service.py:80-95 | Cancels what the table allows and the caller may stop, freeing it; otherwise an error and no change |
| `QueueServices.Database.RetryTask` | backend/src/backend/application/services/task_control_service.py:98-123 | Requeues a failed or reviewed item from attempt 0, except one whose result is uncertain and not marked safe |
| `QueueServices.Database.MarkManualReview` | backend/src/backend/application/services/task_control_service.py:126-144 | Only the holder sends an item to review |
| `QueueServices.Database.CompleteTask` | backend/src/backend/application/services/completion_service.py:19-109 | Only the holder completes an item; item and task finish together or not at all |
| `QueueServices.Database.ProcessClaimed` | backend/src/backend/application/services/worker_execution.py:71-154 | The worker's copy overwrites what the row has become; the item runs and ends where the executor's outcome says, an exception counting as manual review; a copy that is not claimed is skipped; an error undoes everything |
| `QueueOperations.CurrentCopyIsTheRow` | backend/src/backend/application/services/worker_execution.py:71-82 | With a copy that is up to date this is processing the row itself, the case the protocol takes |
| `QueueServices.Database.RenewExecutionLease` | backend/src/backend/application/services/worker_heartbeat.py:55-85 | The holder's lease is set to now plus the lease length; for anyone else nothing changes |
| `QueueServices.Database.EnqueueTask` | backend/src/backend/interfaces/api/routes/tasks.py:259-333 | The manual enqueue: refuses unconfirmed mismatches and active items, rearms the task, and retries, revives or creates the item |
| `QueueServices.Database.DeleteTask` | backend/src/backend/interfaces/api/routes/tasks.py:336-368 | The task and its queue items go together; an unknown task is an error and no change |
| `QueueServices.Database.EnsureQueue` | backend/src/backend/application/services/task_preparation_service.py:254-269 | Adds an item unless some item of the task is neither completed nor cancelled |
| `QueueServices.Database.EnsureQueueItem` | backend/src/backend/application/services/delivery_scheduler.py:102-124 | Adds an item only for a task that never had one and is no rehearsal; moves the release time of a waiting item |
| `QueueServices.Database.Tick` | backend/src/backend/application/services/delivery_scheduler.py:58-88 | One scan: every fetched row matched, synced or created, then admitted, with exact counts; an error abandons all of it |
| `SchedulingProofs.ScanKeepsKeysUnique` | backend/src/backend/application/services/delivery_scheduler.py:58-181 | A source key names at most one stored task after any scan, even when the name and time fallback rewrites keys in the middle of it |
| `SchedulingProofs.ScanIsIdempotent` | backend/src/backend/application/services/delivery_scheduler.py:58-181 | A second scan of the same rows that succeeds creates no task and enqueues nothing, for distinct non-empty keys and no task named by a row number |
| `SchedulingProofs.ScanIsAFixpoint` | backend/src/backend/application/services/delivery_scheduler.py:58-181 | When no two rows share name, time and platform either, the second scan cannot fail and changes nothing at all |
| `ScanOutcome.ScanShowsEveryRow` | backend/src/backend/application/services/delivery_scheduler.py:58-181 | After any successful scan of rows with distinct keys, a task with a fetched row's key has that row's sheet row, name, platform and time, and its validated links when it brings any; every task keeps id, owner, status, stages, drama id and configurations |
| `ScanOutcome.ScanReflectsEveryRow` | backend/src/backend/application/services/delivery_scheduler.py:126-181 | When the rows differ in name, time or platform too, every row has a task: a former one with the row's links unless its own are validated, or a new one that waits with the row's owner, links and link status; every other task is untouched |
| `ScanOutcome.UpsertGoesTo` | backend/src/backend/application/services/delivery_scheduler.py:126-181 | A row goes to the only task with its key, without one to the only unfinished one of its name, time and platform, without one to the task it is named after, and else to a new one; only that task changes |
| `ScanOutcome.RowFailsExactly` | backend/src/backend/application/services/delivery_scheduler.py:126-143 | A row fails exactly when the lookup that decides it finds two tasks, or a new task draws an id in use |
| `ScanOutcome.KeylessRowGoes` | backend/src/backend/application/services/delivery_scheduler.py:126-181 | A row without a source key fails exactly when two unfinished tasks have its name, time and platform; it goes to the one that has, which loses its own key, else to the task it is named after, which keeps it, else to a new one under its own id |
| `ScanOutcome.CountsAddUp` | backend/src/backend/application/services/delivery_scheduler.py:58-88 | Created counts the tasks the scan added, enqueued the items it added; created and updated, and enqueued and skipped, add up to the rows |
| `Polling.PollUntilCompleted` | backend/src/backend/application/services/delivery_flow_service.py:74-124 | The wait never exceeds the timeout, polls are as many as intervals begin in it, the first completed answer ends it, and the lease survives every instant exactly when the first heartbeat does not outlast it |
| `Polling.WaitRenewing` | backend/src/backend/application/services/delivery_flow_service.py:115-123 | Each sleep starts right after a renewal and is no longer than the heartbeat; together they last exactly the interval |
| `Polling.SafeWhileLeased` | backend/src/backend/application/services/worker_heartbeat.py:55-85 | Recovery would spare a renewed row at every instant of a sleep exactly when the sleep is no longer than the lease |
| `Polling.ShortLeaseIsTakenAway` | backend/src/backend/application/services/delivery_flow_service.py:115-123 | With a lease of 30 and a heartbeat of 60 seconds recovery requeues the item while its worker sleeps |
| `AccountAllocation.FindBlockIn` | backend/src/backend/application/services/account_allocation_service.py:55-96 | The first window, in table order, whose rows match the block's groups and are enabled, free and not taken; None exactly when no window matches |
| `AccountAllocation.MatchesPattern` | backend/src/backend/application/services/account_allocation_service.py:78-96 | True exactly when every row of the window fits its group |
| `AccountAllocation.FindIapBlock` | backend/src/backend/application/services/account_allocation_service.py:38-53 | The first block for the paid types present, 9.9 before 2.9; none without a paid type |
| `AccountAllocation.BuildWritePlan` | backend/src/backend/application/services/account_allocation_service.py:106-118 | A plan for exactly the block's rows, the test mark on the test row only |
| `AccountAssignment.LatestTemplate` | backend/src/backend/application/services/account_assignment_service.py:299-323 | A complete, enabled, named block none of whose CIDs is used today; none exactly when no such block exists |
| `AccountSheets.WriteNamesIsPointwise` | backend/src/backend/platforms/mock/mock_feishu.py:53-58 | With unique row numbers, writing names by number names exactly the numbered rows |
| `AccountResults.NamesAreWritten` | backend/src/backend/platforms/mock/mock_feishu.py:53-58 | In any sheet, names are written completely exactly when every number has a row, and then each reads back with the name; no account moves and no name is lost |
| `AccountSheets.AppendKeepsNumbersUnique` | backend/src/backend/platforms/mock/mock_feishu.py:67-86 | Appending a block below the last row keeps row numbers unique |
| `AccountService.Feishu.WriteAccountNames` | backend/src/backend/platforms/mock/mock_feishu.py:53-58 | Names the numbered rows in turn; a number without a row stops it, earlier rows stay written |
| `AccountService.Feishu.AppendAccountBlock` | backend/src/backend/platforms/mock/mock_feishu.py:67-86 | Blank copies of the template, numbered on from the expected last row, at the end of that table only |
| `AccountService.AccountUsageRepository.RecordConfirmed` | backend/src/backend/infrastructure/database/repositories/account_usage_repository.py:25-55 | Repeated or already used CIDs are refused and nothing is stored; otherwise exactly they are added for the day |
| `AccountService.CheckAvailable` | backend/src/backend/application/services/account_assignment_service.py:267-279 | True exactly when every planned row is still there, unchanged, enabled and free |
| `AccountService.CheckWritten` | backend/src/backend/application/services/account_assignment_service.py:282-296 | True exactly when every planned row reads back with its CID, the name, and the test mark where due |
| `AccountService.LatestAppendTemplate` | backend/src/backend/application/services/account_assignment_service.py:299-323 | The search from the bottom finds the latest block that may be copied |
| `AccountService.AccountAssignmentService.AppendAndAllocate` | backend/src/backend/application/services/account_assignment_service.py:200-244 | A rehearsal plans on computed copies and leaves the sheet alone; a real run appends the same rows and picks the same block |
| `AccountService.AccountAssignmentService.WritePlanned` | backend/src/backend/application/services/account_assignment_service.py:146-171 | Blocks are written one after the other, each read back before the next |
| `AccountService.AccountAssignmentService.Assign` | backend/src/backend/application/services/account_assignment_service.py:37-198 | The whole call with growing reserved sets performs the assignment that the theorems below speak about |
| `AccountAssignmentProofs.PlansAreSound` | backend/src/backend/application/services/account_assignment_service.py:51-135 | Planned blocks are free rows of the sheets, no CID used today, IAA and IAP blocks without a common CID |
| `AccountValidation.ValidatorDecides` | backend/src/backend/application/services/account_assignment_service.py:125-133 | Accounts are previewed, confirmed or partly written only when the check passes them; accounts it refuses end in CONFLICT, name no row and record no use, whether found or copied |
| `AccountValidation.AppendsOnlyAccepted` | backend/src/backend/application/services/account_assignment_service.py:200-244 | A sheet grows only by rows whose accounts the check has passed |
| `AccountValidation.CheckOnlyRefuses` | backend/src/backend/application/services/account_assignment_service.py:51-135 | The check can only turn a success into a conflict; where no copies are needed, exactly when it refuses the accounts found without it |
| `AccountResults.AccountsStandInRows` | backend/src/backend/application/services/account_assignment_service.py:51-135 | Previewed or written accounts stand in free rows of the sheets, or copies below them, with their CIDs, names, roles and kinds, unused that day; beside rows marked already only the first unmarked B4 account is marked, and only on request |
| `AccountResults.WrittenRowsShowAccounts` | backend/src/backend/application/services/account_assignment_service.py:137-198 | After a written run each account's row carries the drama name and that account's test mark |
| `AccountResults.EveryRunEnds` | backend/src/backend/application/services/account_assignment_service.py:37-198 | In any sheets, row numbers repeated or not: confirmed and partly written accounts read back with CID and name; the write is partial exactly when uses are recorded and the record refuses the CIDs; CONFLICT and UNAVAILABLE name no row |
| `AccountResults.AppendedRowsAreNumbered` | backend/src/backend/application/services/account_assignment_service.py:200-244 | Appended rows are numbered on from the largest number of their sheet |
| `AccountCopies.AssignedRoles` | backend/src/backend/application/services/account_assignment_service.py:51-135 | Whatever is previewed, confirmed or partly written has exactly the roles of the links wanted, in order: three B1, three B4, three B7 and a BX for IAA, three for 9.9, three for 2.9 |
| `AccountCopies.AppendedIsTheLastBlock` | backend/src/backend/application/services/account_assignment_service.py:299-323 | What a run appends is a copy of the lowest complete block of enabled, named rows with CIDs unused that day and not taken by the other sheet, all columns but number, mark and drama name kept |
| `AccountSearch.SearchDecides` | backend/src/backend/application/services/account_assignment_service.py:51-135 | Which accounts any run names: in each sheet wanted those of the first window of free rows, without one those of the copy of the lowest block that may be copied; UNAVAILABLE exactly when one of the searches ends nowhere, or nothing is wanted, unless the check refused copies before |
| `AccountSearch.ConflictsAreForeignRows` | backend/src/backend/application/services/account_assignment_service.py:137-145 | Accounts found that pass the check end in CONFLICT exactly when one of their row numbers leads to a row that is not free and theirs, which takes a repeated number |
| `AccountGuarantees.PreviewPredictsRealRun` | backend/src/backend/application/services/account_assignment_service.py:37-198 | With unique row numbers a preview changes nothing and predicts the real run: the same accounts, the same failure, or CONFIRMED, except PARTIAL_WRITE exactly when uses are recorded and the plan repeats a CID |
| `AccountGuarantees.HeldRowsAreKept` | backend/src/backend/application/services/account_assignment_service.py:137-171 | However a run ends, and whatever the row numbers, no row that held a drama name changes and no account moves |
| `AccountGuarantees.RunsLeaveTheirPlan` | backend/src/backend/application/services/account_assignment_service.py:137-198 | A written run names exactly its accounts' rows, any other run none; row numbers stay unique; uses grow only on a confirmed, recorded run, by exactly its CIDs |
| `AccountGuarantees.ConfirmedCidsAreFresh` | backend/src/backend/infrastructure/database/repositories/account_usage_repository.py:25-55 | A confirmed, recorded run names distinct CIDs that were unused that day and are used after it |
| `AccountGuarantees.ConfirmationsOfADayAreDisjoint` | backend/src/backend/application/services/account_assignment_service.py:51-198 | Over any run of calls, sheets changing freely in between: confirmed results of one day repeat no CID, within or across calls |
| `PlanServices.AllocateAccounts` | backend/src/backend/application/services/worker_executor.py:489-519 | One block for IAA, one for the paid types present, nothing shared; None when a block is missing |
| `PlanServices.MakeCidConfigs` | backend/src/backend/application/services/worker_executor.py:547-572 | One configuration a CID, from its first account |
| `PlanServices.Route` | backend/src/backend/application/services/plan_rules.py:44-102 | For each link type of the plan, and no other, the CIDs of its roles, the test account appended to IAA |
| `PlanServices.DropRepeats` | backend/src/backend/application/services/plan_spec_service.py:110-118 | The first occurrence of each value, in order: no two alike and no value lost |
| `PlanServices.BuildPlan` | backend/src/backend/application/services/plan_spec_service.py:41-98 | The plan for the non-empty links, refused only for a negative number of materials |
| `PlanServices.ValidatePlan` | backend/src/backend/application/services/plan_validation_service.py:45-192 | The issues of all five checks, in their order |
| `PlanServices.BuildDeliveryForm` | backend/src/backend/domain/plans/delivery_form_spec.py:50-118 | The frozen form, or a refusal at the first thing missing or inconsistent |
| `PlanGuarantees.AllocationIsInParts` | backend/src/backend/application/services/worker_executor.py:489-519 | Allocated accounts come in parts, IAA then 9.9 then 2.9, each with its own roles and there exactly when its link is |
| `PlanGuarantees.RoutesTheWanted` | backend/src/backend/application/services/plan_rules.py:44-102 | With distinct non-empty CIDs the plan's CIDs are those of the wanted accounts, in order, each once, test account included; every link type is served |
| `PlanGuarantees.AllocatedPlansAreValid` | backend/src/backend/application/services/plan_validation_service.py:45-192 | An allocated plan passes validation exactly when it has a non-empty link, has materials, and the clock is no more than a day behind the generated configurations |
| `PlanGuarantees.AllocatedPlansCanBeSubmitted` | backend/src/backend/domain/plans/delivery_form_spec.py:50-118 | It becomes a form exactly when it has a non-empty link, the drama name has no trailing white space, materials are usable and six distinct titles remain. The form has the input's drama name, the group count, advertisement limit and project count calculated for its materials, a task name with the marker of its link set (test, paid, free), trimmed titles, and each wanted account once, in order, with its own link's promotion content |
| `PlanGuarantees.AllAllocatedAreWanted` | backend/src/backend/application/services/worker_executor.py:489-519 | When every link present is non-empty, no allocated account is missing from the form |
| `PlanGuarantees.PromotionContent` | backend/src/backend/domain/plans/delivery_form_spec.py:50-118 | The promotion content of each link type and platform, word for word |
| `PlanChecks.ValidationIsExact` | backend/src/backend/application/services/plan_validation_service.py:45-192 | For any plan and configurations: an issue is reported exactly when the plan has it, each of them put in terms of the plan's own fields |
| `PlanChecks.CountingAreSelected` | backend/src/backend/application/services/plan_validation_service.py:178-208 | The configurations that count for a CID, in order: its own, enabled, in effect now, with subject and delivery type |
| `PlanChecks.FormIsExact` | backend/src/backend/domain/plans/delivery_form_spec.py:50-118 | Any plan becomes a form exactly when every listed thing is there and consistent; the form has one row a CID, in order, with the link, content and event of its one configuration |
| `PlanChecks.RoutingIsExact` | backend/src/backend/application/services/plan_rules.py:44-102 | For any accounts: a link type gets the CIDs of its roles, each once, in order, and IAA on request the account for testing |
| `PlanChecks.DroppingKeepsFirsts` | backend/src/backend/application/services/plan_spec_service.py:110-118 | Without repetitions the CIDs of a plan are exactly those standing for the first time, in order |
| `PlanChecks.ConfigsAreOfFirsts` | backend/src/backend/application/services/worker_executor.py:547-572 | One configuration for each CID, from the first account that has it, in order |
| `PlanChecks.AllocationMarks` | backend/src/backend/application/services/worker_executor.py:489-519 | Allocated accounts stand in the rows of the two blocks; on request the accounts of the first block's test row are marked as well |
| `AssignmentPlans.AssignedIsInParts` | backend/src/backend/application/services/account_assignment_service.py:51-135 | Whenever the production assignment confirms or previews, its accounts come in parts, IAA then 9.9 then 2.9, each there exactly when its link is wanted |
| `AssignmentPlans.AssignedIsFresh` | backend/src/backend/application/services/account_assignment_service.py:51-135 | In sheets where every row has a CID of its own, so do the assigned accounts, also when a template was copied |
| `AssignmentPlans.AssignedPlansAreValid` | backend/src/backend/application/services/worker_executor.py:318-386 | A plan built from assigned accounts with distinct non-empty CIDs passes validation exactly when it has a non-empty link, has materials, and the clock is no more than a day behind the generated configurations |
| `AssignmentPlans.AssignedPlansCanBeSubmitted` | backend/src/backend/application/services/worker_executor.py:318-386 | It becomes a form under the same exact condition as an allocated one, with the same numbers and names, and the form lists every assigned account once, in order, with its own link's promotion content |
| `AssignmentPlans.RepeatedCidIsNoticedLate` | backend/src/backend/application/services/account_assignment_service.py:137-198 | Three free rows, two with one CID: the preview succeeds and the real run ends as a partial write |
| `PlanGuarantees.TrailingSpaceIsRefusedLate` | backend/src/backend/domain/plans/delivery_form_spec.py:70-74 | A drama name with a space at its end: the plan passes every check and is refused as a form |
| `PlanGuarantees.PromotionEndsWithDrama` | backend/src/backend/domain/plans/delivery_form_spec.py:70-74 | Trimmed promotion content ends with the drama name exactly when that name has no trailing white space |
| `MaterialGroups.MatchIsMostSpecific` | backend/src/backend/application/services/plan_rules.py:233-247 | A rule is chosen exactly when some rule covers the count; it covers it, and no covering rule starts higher |
| `MaterialAnswers.FirstOfTheHighest` | backend/src/backend/application/services/plan_rules.py:233-247 | Of the rules covering a count the one with the highest minimum is taken, and of several such the first |
| `MaterialGroups.UnmatchedPlansAreLeast` | backend/src/backend/application/services/plan_rules.py:147-168 | Without a match the group count is the least multiple of three that fits the cap, shared evenly by three projects |
| `MaterialGroups.MatchedPlansFit` | backend/src/backend/application/services/plan_rules.py:170-185 | A matched configuration is kept when its groups hold the materials; otherwise the least multiple of three that does |
| `MaterialGroups.TestPlansAreTight` | backend/src/backend/application/services/plan_rules.py:187-207 | Test plans: fewest groups of their size, fewest projects for the limit, at most three projects up to thirty groups |
| `MaterialAnswers.EveryAnswer` | backend/src/backend/application/services/plan_rules.py:127-207 | Every field of every answer: a negative count refused, none for nothing, test groups of two or three or of the rule's size, and otherwise the rule's numbers or three projects, with a third of the groups as limit |
| `MaterialGroups.PlacesAllGroupsExactly` | backend/src/backend/application/services/plan_rules.py:170-185 | A matched plan places all its groups exactly when, in the rule's own fields, an overflowing count has at least three projects or the configured groups leave no more over than the projects beyond three hold; for three projects: overflow, or configured groups divisible by three |
| `MaterialGroups.OneProjectLeavesGroupsOut` | backend/src/backend/application/services/plan_rules.py:170-185 | Three groups for a target of one project: only one is placed |
| `MaterialGroups.RoundingDownCanLeaveNothing` | backend/src/backend/application/services/plan_rules.py:170-185 | One base group and no copies: an advertisement limit of zero |
| `MaterialRanges.ValidateMaterialItems` | backend/src/backend/application/services/rule_service.py:216-254 | The malformed items, then the overlaps between neighbours of each strategy |
| `MaterialRanges.CheckIsExact` | backend/src/backend/application/services/rule_service.py:216-254 | Nothing is reported exactly when every item is a well formed range and no two ranges of one strategy cover a common count |
| `MaterialReports.ReportsAreTrue` | backend/src/backend/application/services/rule_service.py:216-254 | Reported are exactly the items that are no objects and the faulty ones by key, and of overlaps only true ones, named by strategy and keys |
| `DramaImport.BuildImportPreview` | backend/src/backend/domain/imports/drama_import.py:121-166 | The scan over the day's rows of the operator, with growing key set and counters |
| `DramaImport.ScanIsComplete` | backend/src/backend/domain/imports/drama_import.py:137-166 | Sources are new, duplicate or invalid; the new rows carry exactly the importable identities not there yet, each once |
| `DramaImportRows.PreviewSays` | backend/src/backend/domain/imports/drama_import.py:121-166 | What a preview answers for any rows: its sources, the new rows as the first ones of identities that are not there, and every counter |
| `DramaImportRows.RowsAreMapped` | backend/src/backend/domain/imports/drama_import.py:86-118 | The 14 cells of a mapped row by column, its identity, and which of name, time and platform a refused row lacks first |
| `DramaImportRows.PrivateRowsHaveIdentities` | backend/src/backend/domain/imports/drama_import.py:189-193 | A private row has an identity exactly when name, time and platform are there, and it is theirs |
| `DramaImportRows.BusinessDayIsADate` | backend/src/backend/domain/imports/drama_import.py:170-182 | A text counts for a day exactly when it starts, after white space, with that date: four digits, a separator, one or two digits, a separator, one or two digits, then white space or the end |
| `DramaImportRows.SourceIsTaken` | backend/src/backend/domain/imports/drama_import.py:196-202 | A public row is taken exactly when it is dated that day and its group cell contains the operator's name or, where groups match too, begins with the operator's group |
| `DramaImportRows.OperatorIsListed` | backend/src/backend/domain/imports/drama_import.py:79-83 | The import is for a listed operator, named with or without white space around |
| `DramaImportRuns.MappedIsStored` | backend/src/backend/domain/imports/drama_import.py:86-118 | A mapped row keeps its identity when written and read back from the private sheet |
| `DramaImportRuns.PreviewAfterImportFindsNothing` | backend/src/backend/domain/imports/drama_import.py:121-166 | With the preview's rows imported, previewing again finds none new, the same errors, and all other sources duplicate |
| `DramaImportRuns.RunsNeverDuplicate` | backend/src/backend/application/services/drama_import_service.py:110-208 | Over any run of previews and confirmations with failures before or after the write: no preview is written twice, and the sheet only gains rows with identities no other row has |
| `DramaImportRuns.ConfirmAgain` | backend/src/backend/application/services/drama_import_service.py:139-162 | Confirming a completed run again returns its first result and changes nothing |
| `DramaImportRows.ConfirmationEnds` | backend/src/backend/application/services/drama_import_service.py:139-208 | Every way a confirmation ends: only a previewed run is written, once; completed it answers with its result again, running or failed it is refused; after a failed write it is failed, previewed or still running as its transaction went |
| `DramaImportRows.PreviewIsStored` | backend/src/backend/application/services/drama_import_service.py:110-137 | A preview is stored as previewed with the sheet's revision, and only for a known operator and a fresh id |
| `DramaImportRows.InsertEnds` | backend/src/backend/platforms/feishu/drama_sheet_adapter.py:98-201 | Every way an insertion ends: nothing to write, failed before the write, written on top at the expected revision even when the answer is lost, and at another revision accepted only when the rows are on top already |
| `DramaImportRuns.RetryAfterLostAnswer` | backend/src/backend/platforms/feishu/drama_sheet_adapter.py:106-124 | When the answer to a write is lost and the failure undone, the retry recognises the rows and reports success without a second write |
| `DramaImportService.DramaSheet.InsertPrivateRows` | backend/src/backend/platforms/feishu/drama_sheet_adapter.py:98-201 | Writes below the header only at the expected revision; otherwise accepts rows already on top, or a conflict |
| `DramaImportService.RunRepository.Claim` | backend/src/backend/infrastructure/database/repositories/drama_import_repository.py:53-63 | Only a previewed run is claimed, and is running then |
| `DramaImportService.ImportService.Preview` | backend/src/backend/application/services/drama_import_service.py:110-137 | Stores the preview with the revision it was made at; the sheet is not touched |
| `DramaImportService.ImportService.ConfirmPersisted` | backend/src/backend/application/services/drama_import_service.py:178-208 | A stored run is claimed, written and completed, or marked failed |
| `DramaImportService.ImportService.ConfirmInMemory` | backend/src/backend/application/services/drama_import_service.py:139-162 | A failed insertion leaves a pending preview pending |
| `Text.StripIsTheMiddle` | backend/src/backend/domain/imports/drama_import.py:79-93 | Stripping cuts white space, and only that, off both ends |
| `SheetText.FoldQuotes` | backend/src/backend/platforms/feishu/sheet_parser.py:75-85 | The loop computes the quote state of a line |
| `SheetText.ParseAnnotatedRows` | backend/src/backend/platforms/feishu/sheet_parser.py:36-68 | The line loop computes the rows of the text |
| `SheetTextProofs.QuoteStateIsParity` | backend/src/backend/platforms/feishu/sheet_parser.py:75-85 | The quote state after a line is the parity of its quotes |
| `SheetTextProofs.RecordReads` | backend/src/backend/platforms/feishu/sheet_parser.py:71-72 | Reading a record undoes printing it, whatever cells its writer chose to quote |
| `SheetTextProofs.CleanRowsReadBack` | backend/src/backend/platforms/feishu/sheet_parser.py:36-85 | Parsing undoes printing for commas, doubled quotes, line feeds and lines that look like row marks inside quotes |
| `SheetTextProofs.ReadsBackExactly` | backend/src/backend/platforms/feishu/sheet_parser.py:36-85 | Printed rows are read back exactly when no cell holds a line break other than the line feed |
| `SheetTextLimits.CarriageReturnIsNotReadBack` | backend/src/backend/platforms/feishu/sheet_parser.py:36-85 | A carriage return inside a quoted cell comes back as a line feed |
| `SheetTextRecords.LooseRecordReads` | backend/src/backend/platforms/feishu/sheet_parser.py:71-72 | The first record of text nobody printed: quotes inside plain text are kept, text after a quoted part belongs to its cell, and a line feed outside quotes ends the record |
| `SheetTextRecords.MarkIsExact` | backend/src/backend/platforms/feishu/sheet_parser.py:36-68 | A line opens a row exactly when it starts with a mark of digits, and with that number |
| `RowBatching.GroupsAreMaximalRuns` | backend/src/backend/platforms/feishu/feishu_adapter.py:363-372 | The groups are runs of consecutive rows with a gap before each next one; together they are the sorted rows |
| `RowBatching.KeysGroupTheSameRuns` | backend/src/backend/platforms/feishu/drama_sheet_adapter.py:377-382 | Grouping by value minus index gives the same runs |
| `RowBatching.BatchesWriteEveryAssignment` | backend/src/backend/platforms/feishu/feishu_adapter.py:129-144 | Writing each run as a column has the effect of writing every assignment alone |
| `RowBatching.ContiguousAssignmentGroups` | backend/src/backend/platforms/feishu/feishu_adapter.py:363-372 | The loop builds the runs; refused exactly when a row number is below one |
| `RowBatching.ContiguousRanges` | backend/src/backend/platforms/feishu/drama_sheet_adapter.py:377-382 | First and last row of every run |
| `RowBatching.SheetColumn.WriteAssignments` | backend/src/backend/platforms/feishu/feishu_adapter.py:129-144 | All assignments are written and no other cell, or a row number below one refuses them all before any write |
| `LinkAcquisition.Validate` | backend/src/backend/domain/acquisition/promotion_asset_validator.py:20-75 | The validated result, and on every candidate of an expected type the mark its type's verdict calls for; other candidates untouched |
| `LinkAcquisition.RunPipeline` | backend/src/backend/domain/acquisition/v2_pipeline.py:78-166 | Validate, freeze the confirmed links, decide the outcome |
| `LinkAcquisition.FrozenLinksAreAccepted` | backend/src/backend/domain/acquisition/v2_pipeline.py:110-118 | The frozen set has exactly the expected types with one candidate that is for the task's id, platform and drama and has a usable URL, each with that non-empty URL |
| `LinkAcquisition.ReadyExactlyWhenAllAccepted` | backend/src/backend/domain/acquisition/v2_pipeline.py:139-166 | READY exactly when some type is expected and each has exactly one candidate, with the task's id and platform, an equal folded drama name and a URL that is a mock one, an aweme one with a query holding = on TOMATO, or not blank elsewhere |
| `LinkAcquisition.CheckIsExact` | backend/src/backend/domain/acquisition/promotion_asset_validator.py:78-116 | Which candidate passes, and which of the four reasons names the first thing that does not fit |
| `LinkVerdicts.RunEnds` | backend/src/backend/domain/acquisition/v2_pipeline.py:78-166 | How any run ends: in review with several candidates of a type or none usable, ready when every expected type has its link, with some links when only some have, and without candidates with none |
| `LinkVerdicts.ValidationEnds` | backend/src/backend/domain/acquisition/promotion_asset_validator.py:20-75 | The validated status of any acquisition, and the selected assets by type and order |
| `LinkVerdicts.RunReports` | backend/src/backend/domain/acquisition/v2_pipeline.py:78-166 | One word for every expected type; the missing map has exactly those without a link, with the same word |
| `FallbackChain.Acquire` | backend/src/backend/domain/acquisition/fallback_chain.py:35-104 | The provider loop gathers what the chain theorems speak about, and stops when it should |
| `FallbackChain.ChainSelectsTheEarliest` | backend/src/backend/domain/acquisition/fallback_chain.py:51-78 | At most one asset a type is selected: that of the earliest provider asked that selects the type |
| `FallbackChain.ChainIsReadyExactlyWhenOfferedOnce` | backend/src/backend/domain/acquisition/fallback_chain.py:51-104 | Chain and pipeline together are READY exactly when each expected type was offered once, counted up to the first provider that selects it, by a candidate for the task's id, platform and drama with a usable URL |
| `FallbackReports.ChainReports` | backend/src/backend/domain/acquisition/fallback_chain.py:35-104 | What the chain reports for any answers: each type missing with the first reason given before it was selected, selected types before missing ones, and the status |
| `FallbackReports.AskedUntilDone` | backend/src/backend/domain/acquisition/fallback_chain.py:48-86 | Providers are asked exactly up to the first that answers complete or after which each of the three types has been selected, and all of them without one |
| `FallbackChain.OfferedTwiceIsReviewed` | backend/src/backend/domain/acquisition/fallback_chain.py:56-64 | A type offered again after an earlier provider offered a candidate without selecting it ends in manual review |
| `FallbackChain.RejectedThenFoundIsReviewed` | backend/src/backend/domain/acquisition/fallback_chain.py:51-78 | One provider rejects its candidate and the next finds and selects one: the chain selects it and the run still ends in review |
| `LinkReadinessRuns.ExecuteGoes` | backend/src/backend/application/services/link_readiness_service.py:40-86 | However its calls fail, an execution calls nothing outside after a failed call, asks with the task's own data and never for what is there, and asks for missing configurations in link order; it misses its target only when a call failed or no link can make a drama; ready means drama and all configurations; a complete task needs no outside call; the stored row is the last one written, and the task itself unless an exception escaped |
| `LinkReadinessConfigs.EnsureConfigsGoes` | backend/src/backend/application/services/link_readiness_service.py:160-197 | Configurations are asked for in link order, exactly the missing ones if no call fails, each id written before anything else is called |
| `LinkReadinessConfigs.NothingMissing` | backend/src/backend/application/services/link_readiness_service.py:163-167 | Nothing is missing exactly when every non-empty link has a configuration |
| `LinkReadinessConfigs.MissingAreInOrder` | backend/src/backend/application/services/link_readiness_service.py:160-197 | Missing are exactly the non-empty links whose type has no configuration id, in link order |
| `LinkReadinessConfigs.PrimaryLinkIsFirst` | backend/src/backend/application/services/link_readiness_service.py:216-220 | The drama is made from the IAA link, without one from the 2.9 link, without that from the 9.9 link |
| `LinkReadinessStages.EnsureDramaGoes` | backend/src/backend/application/services/link_readiness_service.py:132-158 | A known drama id is kept with storage calls only; otherwise the stage ends with an id, or with a failed call or no usable link |
| `LinkReadinessStages.EnsureLinksGoes` | backend/src/backend/application/services/link_readiness_service.py:88-130 | Validated links are kept with storage calls only; otherwise one extraction; the stage creates nothing and misses its end only when a call failed |
| `LinkReadinessEnds.RaisedUnlessStoredLast` | backend/src/backend/application/services/link_readiness_service.py:40-214 | An execution returns exactly when its last call stored the task; otherwise an exception escapes |
| `LinkReadinessEnds.LinksAreAskedForUnlessThere` | backend/src/backend/application/services/link_readiness_service.py:88-130 | Links are kept, with one storage call, exactly when they are validated and not empty; otherwise the extraction is asked after its step has begun |
| `LinkReadinessEnds.FailedExtractionEnds` | backend/src/backend/application/services/link_readiness_service.py:98-130 | An extraction that raises has its failure recorded once, one that refuses a second time when the first try fails; review exactly when the recording in the end succeeds |
| `LinkReadinessCycles.StoredIsLastUpdate` | backend/src/backend/application/services/link_readiness_service.py:132-197 | The stored row has exactly the ids created before the last successful update |
| `LinkReadinessCycles.KeptExactlyWhenSaved` | backend/src/backend/application/services/link_readiness_service.py:40-214 | However an execution ends, also by an exception, the stored row has an id that was created exactly when a later update succeeded; when it returns normally it has them all |
| `LinkReadinessCycles.CycleGoes` | backend/src/backend/bootstrap/automation_worker.py:181-196 | A cycle starts from the stored row, creates at most one of each thing and nothing the row has; committed, the row has gained exactly what was created; rolled back, the row is the old one and the call before the rollback failed |
| `LinkReadinessCycles.CommittedState` | backend/src/backend/application/services/worker_execution.py:71-138 | A committed cycle leaves the task as the execution left it, in the state its outcome calls for: ready only when all links are |
| `LinkReadinessCycles.KeptWhenAllAroundSucceeds` | backend/src/backend/application/services/worker_execution.py:71-138 | A cycle keeps what it created exactly when the three calls before and the four calls after the execution succeed; failures inside the execution never lose anything |
| `LinkReadinessCycles.EveryCreationIsKeptOrLost` | backend/src/backend/application/services/link_readiness_service.py:40-197 | Over any run of cycles, each from the stored row, whichever calls fail: creations are what the row gained plus one for each cycle that created and was rolled back; with none of those they are exactly what it gained |
| `LinkReadinessCycles.CreatedAtMostOnceExactly` | backend/src/backend/application/services/link_readiness_service.py:40-197 | At most one drama and one configuration a type are created over a run exactly when no cycle creates one after a cycle that lost one it had created |
| `LinkReadinessCycles.CreatedOnceUnlessAroundFails` | backend/src/backend/application/services/worker_execution.py:71-138 | The same by the calls that fail: at most one of each thing is created over a run exactly when no cycle creates it after one that created it and had a failure among the three calls before or the four calls after its execution; without such failures never more than one |
| `LinkReadinessCycles.LostDramaIsCreatedAgain` | backend/src/backend/application/services/link_readiness_service.py:143-158 | Two cycles in which the update after the creation, its failure record and the event fail create two dramas, and the task knows neither |
| `LinkReadinessService.LinkReadinessService.Execute` | backend/src/backend/application/services/link_readiness_service.py:40-86 | The statements of the service perform the execution the theorems speak about |
| `LinkReadinessService.LinkReadinessService.EnsureLinks` | backend/src/backend/application/services/link_readiness_service.py:88-130 | Keep validated links, or extract, read back and store, with every exit |
| `LinkReadinessService.LinkReadinessService.EnsureDeliveryDrama` | backend/src/backend/application/services/link_readiness_service.py:132-158 | Keep a known drama, or create one for the primary link and store its id, with every exit |
| `LinkReadinessService.LinkReadinessService.EnsurePromotionConfigs` | backend/src/backend/application/services/link_readiness_service.py:160-197 | Create the missing configurations one by one in link order, storing each before the next, with every exit |
| `LinkReadinessService.Worker.Cycle` | backend/src/backend/bootstrap/automation_worker.py:181-196 | Open, execute, close, and roll back unless everything around the execution succeeded |

## Left out

- Database sessions: rollback is a call that leaves the tables as they were; unique indexes other than primary keys, JSON columns and commits in the middle of a call are not modelled.
- Stale copies: `ProcessClaimed` overwrites what the row has become, as the full-row update does; in the protocol every step acts on the current row.
- QueueServices.Database.CompleteTask: the ledger row it creates or reuses is left out; nothing modelled reads it back.
- Confirming a match writes the task and retries its item in one transaction: in the protocol a task write followed by a retry. Deleting a task also deletes its events, artifacts, workflow and ledger rows, which are not modelled.
- Ledger rows and event texts: written beside the modelled changes and never read back by them; of events only the level is kept.
- QueueServices.Database.EnsureQueue: only the queue part of preparation is modelled; storing resolved links changes no queue row.
- Polling.PollUntilCompleted: the mode with a fixed number of polls and the wait without a callback are left out, and sleep lengths are real numbers, so the rounding of repeated float additions is not captured.
- SchedulingProofs.ScanIsIdempotent: the second scan may still fail when the first left two tasks in one slot; `ScanIsAFixpoint` excludes that.
- ScanOutcome.ScanReflectsEveryRow: two fetched rows of one name, time and platform may both go to one task in a scan, so the last of them is shown; for such scans `ScanShowsEveryRow` says what holds.
- Worker lease table: a worker may take its own stopped or expired row back before looking at others, so no exclusion between workers is claimed.
- AccountService.AccountUsageRepository.RecordConfirmed: only day and CID of a use are kept; the other columns are stored and never read by these services.
- The account sheet is the in-memory adapter: rows typed by people during a call are seen only between calls.
- PlanServices.AllocateAccounts: the variant that takes CID configurations from collected mappings is left out; it only refuses more.
- Ceilings are exact integer ceilings; float division beyond 2^53 materials is not captured.
- MaterialRanges.ValidateMaterialItems: alternative key names of an item are resolved before the model sees it.
- DramaImport.BuildImportPreview: fill colours and the validated-links flag are carried along unchanged and left out; date prefixes use ASCII digits only; the source key is the tuple that is hashed, the hash being taken as injective.
- DramaImportRuns.RunsNeverDuplicate: previews are atomic and nobody else edits the private sheet; the code reads the rows before the revision, so an edit between the two reads would escape it.
- Reading the public sheet in chunks, row heights and formula checks: foreign calls that can only fail.
- SheetText.ParseAnnotatedRows: the CSV reader's limit on field length and Unicode digits in row marks are not modelled; what becomes of the cells of a row afterwards is plain field access.
- RowBatching.SheetColumn.WriteAssignments: a command writes its values as they are; the CSV quoting of a column is not part of it, nor is a command that fails after others succeeded.
- FallbackChain.Acquire: the expected types come in order of selection where the program takes them from an unordered set; warnings and diagnostics are left out.
- LinkReadinessService.LinkReadinessService.Execute: creation calls that succeed return non-empty ids (an empty one would be asked for again), and a call that fails creates nothing (an answer lost after the creation is the adapter's own search to resolve). A refused extraction leaves the stored row alone, where preparation first saves the link status and the links it found (INVALID_URL, DRAMA_MISMATCH, FAILED); no id is touched. Stage records, reads, queue rows and events are only calls that may fail; after a failed call the others answer as before.
- AssignmentPlans.AssignedPlansAreValid: for the generated CID configurations; those collected from mappings are foreign data.
- Dashboard, HTTP plumbing, settings, logging, login, browser pages, the command line adapter, rule versions and reports: user interface and foreign calls.
- Price simulation, shadow mode and the miniprogram domain: only easy members.
