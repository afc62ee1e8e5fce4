# Verified model of the audio job system

The system keeps one PostgreSQL row per job. API replicas create and cancel jobs, an outbox
publisher moves committed events to Kafka, workers lease and process jobs, a cleanup service
deletes expired objects, and WebSockets and the browser follow progress. All of them can
crash, roll back or interleave. This project models the protocol between them and proves
what it promises over whole runs.

## How the model is built

- `Tables.dfy` holds the rows and gives every transaction its meaning as a function on the
  database; a run is a list of transactions in commit order. `RowMoves.dfy` describes the
  same transactions from the point of view of one row.
- `RowInvariants.dfy`, `Leases.dfy`, `Conservation.dfy` and `CleanupFencing.dfy` prove the
  promises that hold for every list of transactions, whoever issues them: row shapes,
  terminal states, leases, outbox bookkeeping, cleanup claims, retention, account deletion.
- `AcceptedWrites.dfy` says column by column what each transaction does when it applies.
  `ProtocolSteps.dfy`, `ProtocolProgress.dfy`, `ProtocolCancellation.dfy`, `ProtocolOffsets.dfy`
  and `ProtocolPublishing.dfy` say that undisturbed processes get the work of the protocol done.
- `Store.dfy` is the mutable database with a ghost history of its committed transactions.
  `WorkerDatabase.dfy` and `JobService.dfy` are the source's statements on it, each proved
  against its transaction.
- `JobHandler.dfy`, `StorageCleanup.dfy` and `OutboxPublisher.dfy` are the worker, the
  cleanup process and the publisher as loops over that store, with other processes free to
  commit anything between two statements of a worker or a cleaner.
- `Protocol.dfy` is the whole system as a state machine: database, Kafka partitions with
  committed offsets, every worker's program counter and heartbeat, every publishing pass.
  A step label names the process that moves and the answer of its environment, including
  database calls that raise before or after their commit took effect.
  `ProtocolSafety.dfy` and `ProtocolTheorems.dfy` prove its invariants and theorems.
- `JobSubscription.dfy` and `SubscriptionRuns.dfy` model one server-side WebSocket: the code
  between two awaits, then every interleaving of events. `SubscriptionTheorems.dfy` proves
  what goes over the wire, `SubscriptionCalls.dfy` what becomes of a refresh call, and
  `SubscriptionEffects.dfy` that subscribing, unsubscribing and the safety timer work.
- `Admission.dfy` interleaves the single statements of job creation under the owner lock.
- `Progress.dfy` is the progress arithmetic of one attempt; `BrowserConnection.dfy` is the
  browser's reconnecting client.

`dafny verify dfyconfig.toml` checks the project.

## What the proofs say about the code

- The worker's status update checks ownership only, not the row's status. It is safe because
  every transaction that ends a job also clears the owner; `RowInvariants.RunKeepsDbOk`
  carries that, and `RowInvariants.TerminalIsAbsorbing` follows.
- Admission control bounds an owner's unfinished jobs only as long as no login adopts jobs.
  `Admission.AdoptionCanExceedLimit` is a run that breaks the bare limit at once, and
  `Admission.AdmittedCreationCanExceedLimit` one that breaks it later, because a creation was
  past its limit check when the adoption came. `Admission.AdoptionKeepsLimitExactly` gives the
  exact condition, and `Admission.ActiveJobsAreBounded` the bound that always holds.
- A failed database read drops the refresh calls that wait for it, the one that started it as
  well as those only remembered; `SubscriptionCalls.RememberedCallIsDropped` and
  `SubscriptionCalls.OwnReadFailureDropsCall` are runs from a fresh socket. Nothing else drops
  one: `SubscriptionCalls.ReadDecides` and `SubscriptionCalls.LastCallIsServedExactly` say it
  in both directions.

## Model

| member | source | states |
|---|---|---|
| RowMoves.StepMovesRow | worker/database.py:53-234 | seen from one row, each committed transaction of any process does exactly one of eleven guarded moves; nothing else touches the row |
| RowMoves.StepAddsRow | backend/src/services/jobService.ts:125-131 | a row that was not there is a new PENDING job under a fresh id, and only job creation adds one |
| RowInvariants.StepKeepsRows | worker/database.py:71-234 | one transaction of any process keeps the shape and storage invariants of every row |
| RowInvariants.RunKeepsDbOk | worker/database.py:71-234 | in every run: progress 100 iff COMPLETED iff results exist; an owner exists exactly while PROCESSING or RETRYING; PENDING and FAILED have 0, RETRYING 10, PROCESSING 10..99, CANCELLED 0..99; an error exists exactly in RETRYING or FAILED; an expiry exists exactly on terminal rows; deleted storage means expiry <= deletion time and no deleted owner |
| RowInvariants.TerminalIsAbsorbing | worker/database.py:196-234 | no later transaction of anyone (late worker writes, claims, heartbeats, account deletion, cleanup) changes status, progress, results or error of a terminal job |
| RowInvariants.CancellationSticks | backend/src/services/jobService.ts:194-212 | after an accepted cancellation the job stays CANCELLED, without results or error and with the progress it had, for as long as its row exists |
| RowInvariants.FinishedIsStable | worker/job_handler.py:54-57 | a job that is terminal or removed is so in every later state |
| AcceptedWrites.ClaimTakesOver | worker/database.py:67-94 | a claim of a waiting job, or of one whose heartbeat is older than the timeout, makes the claimant its owner with the columns the statement names and one notification, and touches nothing else |
| AcceptedWrites.ClaimIsRefused | worker/database.py:82-113 | a claim of an unknown or finished job, or of one with a fresh heartbeat, changes nothing |
| AcceptedWrites.OwnerWrites | worker/database.py:116-248 | the owner of an unfinished job begins attempts, refreshes its heartbeat and writes every status, column by column; a COMPLETED or FAILED write releases the lease and sets the retention |
| AcceptedWrites.CreationSucceeds | backend/src/services/jobService.ts:90-162 | a new upload of an owner below the limit becomes a waiting job with its created event |
| AcceptedWrites.CreationIsRefused | backend/src/services/jobService.ts:98-121 | an upload that has a job, or one of an owner at the limit, changes nothing |
| AcceptedWrites.CancellationSucceeds | backend/src/services/jobService.ts:183-244 | the owner of an unfinished job cancels it: lease and error cleared, retention set, one notification |
| AcceptedWrites.CancellationIsRefused | backend/src/services/jobService.ts:194-234 | a request for a job that is over, unknown or someone else's changes nothing |
| AcceptedWrites.AdoptionSucceeds | backend/src/auth/accountService.ts:23-41 | a login or registration moves every row of the anonymous owner, and no other |
| AcceptedWrites.DeletionSucceeds | backend/src/auth/accountLifecycleService.ts:76-111 | row by row: unfinished jobs are cancelled and told, every owned row expires now and is marked, cleaned rows and the user leave, other rows stay |
| AcceptedWrites.ExpiredJobIsClaimed | backend/src/services/storageCleanup.ts:33-60 | an expired undeleted job that is unclaimed or timed out is claimed by any batch with room; only jobs that expired no later take its place |
| AcceptedWrites.HolderEndsClaim | backend/src/services/storageCleanup.ts:144-205 | the holder's completion records the deletion now or removes the row of a deleted owner; its failure releases the claim with the error |
| AcceptedWrites.PublishingMarks | backend/src/kafka/outboxPublisher.ts:83-105 | a publisher's commit marks exactly its sent rows published and counts exactly its failed ones |
| Leases.HealthyOwnerIsNeverDisplaced | worker/database.py:71-94 | while an owner's accepted heartbeat-refreshing writes are never further apart than the claimants' lease timeout, no claim of the job succeeds and the owner keeps the row until the job is over |
| Leases.ClaimsFollowSilence | worker/database.py:82-90 | for as long as a worker has owned a job, a claim by anyone succeeds if and only if the owner's last refreshing write is older than the lease timeout, so a dead worker's job is taken over |
| Leases.DisplacedWorkerWritesNothing | worker/database.py:154-165 | until it claims again, every begin, refresh and update call of a worker that is not the owner leaves all tables unchanged |
| Conservation.OutboxConservation | worker/database.py:35-50 | in every run from empty tables a created job has exactly one created event, and its status events are exactly its accepted claims, begun attempts, owned updates and cancellations |
| Conservation.StepEmits | backend/src/auth/accountLifecycleService.ts:76-92 | one transaction appends to the outbox exactly the events its accepted status changes call for, account deletion one per cancelled job |
| CleanupFencing.CleanupClaimsFinishedJobs | backend/src/services/storageCleanup.ts:33-46 | cleanup claims only terminal jobs without an owner and with storage still there |
| CleanupFencing.StaleClaimantWritesNothing | backend/src/services/storageCleanup.ts:144-162 | the completion and failure writes of a claimant whose claim was replaced or ended change nothing, for the rest of every run |
| CleanupFencing.ReclaimMakesStale | backend/src/services/storageCleanup.ts:47-53 | claiming again after the timeout draws a new number and makes the old claim stale |
| CleanupFencing.StorageIsDeletedOnce | backend/src/services/storageCleanup.ts:145-153 | storage_deleted_at is written at most once per job, by the holder of the current claim, on a terminal job; no cleanup transaction touches the job afterwards |
| CleanupFencing.RowsLeaveWhenBothFactsHold | backend/src/auth/accountLifecycleService.ts:94-104 | a row disappears exactly when the second of the two facts, owner deleted and storage deleted, commits; no row is left with both |
| CleanupFencing.RetentionIsHonoured | backend/src/services/jobService.ts:195-208 | cleanup claims a finished job no earlier than the retention hours after it ended, unless its owner deleted the account |
| CleanupFencing.LiveClaimIsKept | backend/src/services/storageCleanup.ts:38-42 | before the claim timeout nobody takes a cleanup claim away from its holder |
| Store.FinishedLater | worker/main.py:139-142 | what is over at one point of the committed history is over at every later point |
| WorkerDatabase.ClaimJob | worker/database.py:53-113 | claims exactly a PENDING job or one with a stale lease, reports the job's status otherwise, and notifies in the same commit |
| WorkerDatabase.BeginJobAttempt | worker/database.py:116-147 | counts an attempt and resets progress only for the current owner of a leased row; otherwise the exception and no change |
| WorkerDatabase.RefreshJobLease | worker/database.py:150-167 | advances the heartbeat and nothing else, exactly when the worker owns a leased row |
| WorkerDatabase.WriteOwnedStatus | worker/database.py:170-234 | the owned update: results kept when none are given, lease released and expiry set on COMPLETED or FAILED, one notification |
| WorkerDatabase.IsJobCancelled | worker/database.py:20-32 | true exactly when the row exists and is CANCELLED |
| JobService.CreateJob | backend/src/services/jobService.ts:65-173 | creates a job and its created event exactly when the upload is new and the owner is below the limit; a duplicate reports the newest job of that upload |
| JobService.CancelJob | backend/src/services/jobService.ts:183-252 | cancels exactly an owned active job and tells not-found from already-terminal |
| JobService.AdoptAnonymousJobs | backend/src/auth/accountService.ts:23-41 | moves every row of the anonymous owner to the user and changes nothing else |
| JobService.RegisterUser | backend/src/auth/accountService.ts:66-100 | adopts the anonymous rows together with the new user, or rolls back both |
| JobService.CreateUserSession | backend/src/auth/accountService.ts:117-134 | adopts the anonymous rows for an existing user, or rolls back |
| JobService.DeleteUserAccount | backend/src/auth/accountLifecycleService.ts:65-132 | its statements together cancel and notify every active job once, expire and mark every owned row, drop the cleaned ones and the user, or change nothing |
| JobService.DeletionStatements | backend/src/auth/accountLifecycleService.ts:76-111 | the three statements on job rows compose to one rewriting of each owned row |
| JobHandler.Worker.UpdateJobStatus | worker/database.py:227-248 | the owner's update commits; anyone else's raises a cancellation exactly if the row is CANCELLED at the second look, and else an error |
| JobHandler.Worker.TryAttempt | worker/job_handler.py:84-120 | one attempt begins exactly once; it ends COMPLETED, cancelled with the job CANCELLED, or fails because processing broke or the lease was lost |
| JobHandler.Worker.HandleFailure | worker/job_handler.py:121-166 | before the last attempt one RETRYING write and the loop goes on, unless the lease is lost; after the last one the job is given up |
| JobHandler.Worker.GiveUp | worker/job_handler.py:152-166 | a job that is CANCELLED at the last look gets neither letter nor FAILED and nothing is committed; otherwise every FAILED write comes after the dead letter this call confirmed |
| JobHandler.Worker.RunAttempts | worker/job_handler.py:72-176 | FAILED and the dead letter come only after exactly the configured number of attempts with a RETRYING write between each two; without a lost lease every broken attempt short of the last is followed by another; a normal end is COMPLETED or FAILED; an exception needs a lost lease or an unconfirmed letter |
| JobHandler.Worker.WaitForJobClaim | worker/job_handler.py:30-69 | it claims once for every time it finds no shutdown requested; without a claim either shutdown was requested or the job is unknown or terminal |
| JobHandler.Worker.HandleJob | worker/job_handler.py:179-228 | with any interleaved transactions of other processes: a message reported handled names a finished job, it is left only on shutdown, given up only after all attempts, and each FAILED write follows its confirmed dead letter; an exception needs a lost lease or an unconfirmed letter |
| JobHandler.Worker.RunConsumerSession | worker/main.py:81-142 | whatever others commit during and between messages: every message below the committed offset names a finished job, the offset moves by exactly the commits the broker accepted, every handled message is committed unless the broker refuses, and the session ends only on shutdown, at an unfinished message, or lost |
| JobHandler.RunHeartbeat | worker/lease.py:37-65 | every interval commits one refresh or meets a database error, which the thread survives; every refresh but a last refused one found its worker owning the leased row, and without a refusal it ran until told to stop |
| OutboxPublisher.SelectsOldest | backend/src/kafka/outboxPublisher.ts:56-63 | a pass locks at most ten rows, all pending and unlocked, each once, and leaves out none that is older |
| OutboxPublisher.Publisher.SendRows | backend/src/kafka/outboxPublisher.ts:70-113 | each locked row is sent once, in order, and marked published exactly if its send was acknowledged, counted as failed exactly if not |
| OutboxPublisher.Publisher.PublishPendingOutboxEvents | backend/src/kafka/outboxPublisher.ts:28-130 | a pass is skipped only while another runs in the process and rolled back, changing no table, only when a database call raised; otherwise it commits, and the commit marks exactly the rows whose send was acknowledged |
| ProtocolSafety.WorkerReportsTruth | worker/job_handler.py:190-228 | a worker moves to skipping or handled only when the job is over in the database |
| ProtocolSafety.NextKeepsInv | worker/main.py:98-142 | every step of every process keeps the invariant tying database, Kafka, committed offsets, consumer positions and workers together, and loses nothing that was there |
| ProtocolTheorems.ProtocolRunsTransactions | worker/job_handler.py:179-228 | the database of every protocol run is reached by a run of transactions, so all results on transaction runs apply |
| ProtocolTheorems.NoCommittedJobIsLost | backend/src/services/jobService.ts:139-162 | in every reachable state an unfinished job's created event is pending in the outbox or in a partition at or after its committed offset |
| ProtocolTheorems.CommittedMessagesAreOver | worker/main.py:139-142 | every message below a committed offset names a terminal or removed job |
| ProtocolTheorems.PublishedRowsWereSent | backend/src/kafka/outboxPublisher.ts:70-90 | PUBLISHED rows were appended to Kafka, Kafka holds only genuine rows, concurrently locked batches are disjoint |
| ProtocolTheorems.LockedRowsUntouched | backend/src/kafka/outboxPublisher.ts:49-63 | while a pass holds its lock no step of any process changes a locked row |
| ProtocolTheorems.RollbackRestoresBatch | backend/src/kafka/outboxPublisher.ts:116-120 | after a rollback every row of the batch is as it was selected, pending and unlocked, whatever was sent |
| ProtocolTheorems.FailedJobsHaveDeadLetters | worker/job_handler.py:155-166 | in every run a FAILED job has a dead letter that was confirmed delivered |
| ProtocolTheorems.FailingClaimUsedEveryAttempt | worker/job_handler.py:77-166 | a claim whose FAILED write is accepted, with no database call of the main thread raising, began exactly the configured number of attempts |
| ProtocolTheorems.RetryBudget | worker/job_handler.py:77-147 | in every run a job's attempts are at most the configured number times its accepted claims |
| ProtocolProgress.DeliveryCompletes | worker/job_handler.py:179-228 | from every state in which the next message names a waiting or abandoned job, an undisturbed worker claims it, completes it with its results, and commits past the message |
| ProtocolProgress.FailureIsBuried | worker/job_handler.py:77-166 | when every attempt breaks, an undisturbed worker begins exactly the configured number of attempts and ends with the dead letter confirmed, the job FAILED with its error, and the message committed |
| ProtocolSteps.FinishedMessageIsSkipped | worker/job_handler.py:190-206 | a message whose job is over or gone is committed without changing a table |
| ProtocolSteps.HeldMessageWaits | worker/job_handler.py:44-66 | while another owner's heartbeat is fresh the worker keeps asking and changes nothing |
| ProtocolCancellation.CancellationIsNoticed | worker/database.py:240-248 | wherever the worker stands in its attempts, its next write or check finds a cancellation, writes nothing, and the message counts as handled |
| ProtocolCancellation.CancellationInterruptsWork | worker/job_handler.py:118-120 | so do a progress report and the check between two stages |
| ProtocolCancellation.OwnerWorksOn | worker/lease.py:37-56 | while the lease is its own, reports and heartbeats of a worker are written and it goes on |
| ProtocolOffsets.CommitPassesMessage | worker/main.py:139-142 | an applied offset commit passes the handled message |
| ProtocolOffsets.CommittedMessageIsNotReadAgain | worker/main.py:98-142 | after an applied commit, until the next one of the partition, whatever happens, a consumer that is assigned the partition and polls reads beyond the committed message |
| ProtocolPublishing.PassPublishes | backend/src/kafka/outboxPublisher.ts:47-118 | in every reachable state, a pass takes the oldest pending unlocked rows, ten or all there are, and when its sends are acknowledged every one of them is in Kafka and PUBLISHED |
| StorageCleanup.SelectCandidates | backend/src/services/storageCleanup.ts:33-46 | the candidates are expired, undeleted and unclaimed (or timed out) rows, earliest first, at most the batch size, none skipped that is earlier and unlocked |
| StorageCleanup.ClaimExpiredJobs | backend/src/services/storageCleanup.ts:23-63 | every selected row gets its own fresh claim id, and the caller gets its keys and claim |
| StorageCleanup.CollectObjectKeys | backend/src/services/storageCleanup.ts:65-106 | the result is duplicate-free and holds exactly the source key, the result keys and every key of the complete listing |
| StorageCleanup.EachKeyInOneRequest | backend/src/services/storageCleanup.ts:111-125 | chunking puts every key in exactly one request of at most 1,000 keys and adds no other key |
| StorageCleanup.DeleteJobObjects | backend/src/services/storageCleanup.ts:108-136 | a normal return means the storage was listed to its end and every object of the job was named in exactly one acknowledged request of this pass, of at most 1,000 keys, with no other key, while others commit between the requests |
| StorageCleanup.MarkCleanupCompleted | backend/src/services/storageCleanup.ts:138-186 | records the deletion only for the claim holder and removes the row exactly when the owner is deleted too |
| StorageCleanup.MarkCleanupFailed | backend/src/services/storageCleanup.ts:188-206 | releases the claim with the error only for the claim holder |
| StorageCleanup.RecordDeletion | backend/src/services/storageCleanup.ts:138-186 | unless the call never reaches the database its completing write is committed; the job counts as deleted exactly if the answer is heard and the claim still held |
| StorageCleanup.CleanupJob | backend/src/services/storageCleanup.ts:219-232 | the completing write is committed only after a whole acknowledged pass, however the iteration ends, and after such a pass it is committed unless the call never reached the database; without a failed call the job is deleted or its claim was taken over |
| StorageCleanup.CleanupExpiredStorageBatch | backend/src/services/storageCleanup.ts:208-236 | a normal return has handled every selected row, claimed = deleted + failed, and failed is at most the failed storage calls, lost answers and claims taken over; jobs counted as deleted are recorded and stay cleaned; however the batch ends, every completing write of one of its claims follows the complete acknowledged deletion of that job in this batch |
| JobSubscription.JobSocket.SendJobUpdate | backend/src/websocket/jobSubscription.ts:57-85 | sends a snapshot only if it differs from the previous one, remembers it, and stops the timer of a finished job |
| JobSubscription.JobSocket.RefreshStart | backend/src/websocket/jobSubscription.ts:87-109 | a call on the current object starts a read, or is remembered while one runs; a call on another object does nothing |
| JobSubscription.JobSocket.RefreshContinue | backend/src/websocket/jobSubscription.ts:114-151 | what each way a read can end does to the object, the socket and the wire |
| JobSubscription.JobSocket.SubscribeContinue | backend/src/websocket/jobSubscription.ts:158-203 | only the newest action replaces the subscription, stopping the old timer and confirming before the first snapshot |
| JobSubscription.JobSocket.HandleUnsubscribe | backend/src/websocket/jobSubscription.ts:227-233 | invalidates running lookups, drops the subscription and its timer |
| JobSubscription.JobSocket.NotifyJobChanged | backend/src/websocket/jobUpdates.ts:202-214 | only a socket watching this job refreshes |
| JobSubscription.JobSocket.HandleClose | backend/src/websocket/jobUpdates.ts:133-135 | a closing socket drops its subscription and stops its timer |
| SubscriptionRuns.NextKeepsInv | backend/src/websocket/jobSubscription.ts:87-203 | every event, in any order, keeps: refreshing means exactly one pending read, only the current object has a timer, the previous payload is the latest accepted read, the last call was served, is being served, or met a failed read |
| SubscriptionTheorems.ReadsNeverOverlap | backend/src/websocket/jobSubscription.ts:97-109 | two refresh reads of one subscription object are never pending together |
| SubscriptionTheorems.UpdatesMoveForward | backend/src/websocket/jobSubscription.ts:57-85 | per object, updates on the wire never go back in database order and consecutive ones differ |
| SubscriptionTheorems.RetiredSubscriptionIsSilent | backend/src/websocket/jobSubscription.ts:121-136 | a replaced or cleared object never sends another update |
| SubscriptionCalls.NoLostWakeup | backend/src/websocket/jobSubscription.ts:87-151 | after any refresh call, in every later state with the subscription still current: a read that started at or after the call was accepted, or is pending, or follows the pending one, or a read failed since; once accepted, the payload is at least as new as the database at the call and is the last update on the wire |
| SubscriptionCalls.ReadDecides | backend/src/websocket/jobSubscription.ts:114-151 | the end of a read serves the calls made before it started and starts the read that serves those made while it ran; both are dropped if and only if the read failed |
| SubscriptionCalls.LastCallIsServedExactly | backend/src/websocket/jobSubscription.ts:97-151 | in every run, on a current subscription with no read pending, the last call was served if and only if no read failed since it |
| SubscriptionCalls.FailedReadDropsCalls | backend/src/websocket/jobSubscription.ts:137-150 | a failed read of the current object, its own or the one it was remembered by, leaves the last call unserved with no read pending |
| SubscriptionCalls.RememberedCallIsDropped | backend/src/websocket/jobSubscription.ts:104-109 | a run from a fresh socket in which a notification is remembered by a read that fails, and the socket stays behind the database |
| SubscriptionCalls.OwnReadFailureDropsCall | backend/src/websocket/jobSubscription.ts:137-150 | a run from a fresh socket in which the read started by the notification fails, with the same end |
| SubscriptionEffects.TimerRunsUntilFinished | backend/src/websocket/jobSubscription.ts:74-84 | in every run the current subscription has its safety timer if and only if no snapshot it accepted, the first one included, was COMPLETED, FAILED or CANCELLED |
| SubscriptionEffects.SubscribeTakesEffect | backend/src/websocket/jobSubscription.ts:153-203 | whatever happens until its lookup answers, short of a newer action, a subscribe makes that job the current subscription with the snapshot it read |
| SubscriptionEffects.UnsubscribedIsSilent | backend/src/websocket/jobSubscription.ts:227-233 | after an unsubscribe, until the next subscribe, no lookup takes effect and no update is sent |
| SubscriptionEffects.RefreshAnswerIsTold | backend/src/websocket/jobSubscription.ts:118-147 | on an open socket every refresh read of the current subscription ends in an error message, a not-found message that drops it, or the new snapshot if it changed |
| SubscriptionEffects.LookupAnswerIsTold | backend/src/websocket/jobSubscription.ts:161-190 | on an open socket every newest lookup ends in an error, a not-found message, or the confirmation and the first snapshot; an outdated one is ignored unless it failed |
| Admission.ActiveJobsAreBounded | backend/src/services/jobService.ts:85-121 | under every interleaving of statements an owner's active jobs are at most limit times one plus its adoptions; the bare limit for owners that adopt nothing |
| Admission.OneJobPerUpload | backend/src/services/jobService.ts:90-106 | while no job changes owner, one upload of an owner has at most one job |
| Admission.UninterruptedCreation | backend/src/services/jobService.ts:85-165 | whatever else is open under other locks, a new upload of an owner below the limit becomes exactly one active row |
| Admission.RefusedCreation | backend/src/services/jobService.ts:98-121 | a duplicate upload, or an owner at the limit, leaves no trace |
| Admission.AdoptionAddsUp | backend/src/auth/accountService.ts:34-40 | adoption skips admission: right after it the active jobs its UPDATE saw count for the user, on top of its own, and the others stay behind |
| Admission.AdoptionKeepsLimitExactly | backend/src/auth/accountService.ts:34-40 | no continuation without another adoption by that user finds it above the limit if and only if its active jobs, its admitted but uncommitted creation and the active jobs that move were together within it |
| Admission.AdoptionCanExceedLimit | backend/src/auth/accountService.ts:34-40 | a run in which an adoption takes an account above the limit |
| Admission.AdmittedCreationCanExceedLimit | backend/src/services/jobService.ts:108-131 | a run in which the limit holds right after the adoption and a creation admitted before it exceeds it |
| Progress.RoundIsNearestEven | worker/processing.py:71 | round(n/d) is a nearest integer, the even one on a tie |
| Progress.RoundedIsMonotone | worker/processing.py:71 | any two roundings keep the order of their fractions, so the rounding is unique and monotone |
| Progress.HandleOutputLine | worker/demucs_process.py:140-160 | a line is written exactly when it moves progress forward |
| Progress.RunDemucs | worker/demucs_process.py:57-60 | whatever the child prints and wherever it stops, the writes start at 25, never go back and stay within 25..92; a normal end has written 25 and exactly the values that went beyond all before them, and only a cancellation, a lost lease or a failed child prevents it |
| Progress.LineBands | worker/demucs_process.py:143-151 | separation events stay at or below 84 for any value, stem events lie in 85..92 and the last stem is 92 |
| Progress.LineIsNearest | worker/demucs_process.py:143-151 | separation is 25 plus the nearest whole part of 59 points, cut off at 84; stems are 85 plus the nearest whole part of 7 points |
| Progress.UploadIsNearest | worker/processing.py:71 | upload progress is 92 plus the nearest whole part of 7 points |
| Progress.UploadStems | worker/storage.py:73-110 | upload writes never go back, stay within 92..99, and the last stem's is exactly 99; all stems are written unless the job is cancelled, the lease lost, or there are none |
| Progress.ProcessAudioJob | worker/processing.py:30-102 | every stage's writes continue the earlier ones without going back, within 15..99 |
| Progress.RunAttempt | worker/job_handler.py:84-108 | one attempt's progress never goes back and a completed one runs from 10 to 100; it completes unless the job is cancelled, the lease is lost, or the model fails or leaves no stems |
| BrowserConnection.JobConnection.Dispatch | frontend/src/realtime/jobSubscription.ts:209-297 | the handlers, called for any event, perform exactly the transition of the machine the theorems are about |
| BrowserConnection.JobConnection.Turn | frontend/src/realtime/jobSubscription.ts:209-297 | after every event: at most one open-ended socket or reconnect timer, exactly one while neither stopped nor terminal; polling if and only if three attempts failed, while neither; a timeout on every connecting socket; no timer after cleanup; stopped exactly after cleanup and terminal exactly after a finished job was handed over; the page got every change received, once |
| BrowserConnection.JobConnection.OnClose | frontend/src/realtime/jobSubscription.ts:262-269 | a closed socket clears its timeout and schedules one reconnect, with polling from the third failure on |
| BrowserConnection.JobConnection.Leave | frontend/src/realtime/jobSubscription.ts:277-297 | cleanup stops everything in the source's order |
| BrowserConnection.HappenKeepsInv | frontend/src/realtime/jobSubscription.ts:144-297 | every browser event keeps the invariant on sockets, armed timers and the variables that name them |
| BrowserConnection.OneConnectionOrTimer | frontend/src/realtime/jobSubscription.ts:174-270 | while neither stopped nor terminal there is exactly one of a not-yet-closed socket and a pending reconnect timer, and never both |
| BrowserConnection.PollingNeedsThreeFailures | frontend/src/realtime/jobSubscription.ts:190-198 | polling is active only after at least three failed attempts since the last confirmed subscription |
| BrowserConnection.NothingOpensAfterTheEnd | frontend/src/realtime/jobSubscription.ts:209-214 | after cleanup or a terminal job no socket is opened; after cleanup no timer is pending or ever armed |
| BrowserConnection.ConsecutiveDeliveriesDiffer | frontend/src/realtime/jobSubscription.ts:90-105 | the page never gets the same update twice in a row |
| BrowserConnection.EveryChangeIsDelivered | frontend/src/realtime/jobSubscription.ts:90-125 | in every run the page gets exactly what sockets and requests brought, without repetitions |
| BrowserConnection.EndsExactly | frontend/src/realtime/jobSubscription.ts:112-124 | the connection is terminal exactly when the page's callback for a finished job returned, and stopped exactly when the page left |
| BrowserConnection.TroubleCloses | frontend/src/realtime/jobSubscription.ts:230-258 | an error, a connection timeout, a finished job and the end of the page close the socket in use |
| BrowserConnection.PollingAsks | frontend/src/realtime/jobSubscription.ts:144-172 | polling asks at once when it starts, again at every tick, and at no other time |

## Left out

- HTTP routes, request schemas, origin checks, rate limits, cookies, passwords and tokens: library wrappers or single tests.
- React components and hooks, stem ordering and content types: presentation.
- Demucs inference, the child process and its files: only the stream of progress lines and the outcome remain.
- Environment parsing, logging, metrics and the worker presence registry.
- PostgreSQL time: every transaction reads one clock and commits at that time, so a transaction that waits on a row lock with an older `NOW()` is not represented.
- Columns no transaction reads back: file names, created_at, updated_at, published_at, last_error. The notification content is the job id only.
- UUIDs are fresh numbers; two equal random UUIDs do not occur.
- Two running worker processes never share a worker id (it is the container's host name).
- Fairness: that a process eventually gets its turn, a lease eventually expires or a timer eventually fires. The results say what holds whenever it has happened, and what a process that is left alone for its next steps gets done.
- Kafka's choice of partition by key and the order of events of one job: any partition may receive any event, offsets may be committed by a member that lost its partition, and no result needs more.
- JobHandler.Worker.HandleJob: database calls that raise for reasons other than ownership are not part of the loops in JobHandler; Protocol has them at every call. The shutdown flag is found set after some number of reads, which covers every finite wait.
- JobHandler.Worker.ProcessAudioJob: stands for any sequence of PROCESSING writes within 15..99 with checkpoints; the stages and their exact progress are in Progress.
- JobHandler.Worker.RunConsumerSession: reads one partition; several partitions, rebalances and replaced consumers are in Protocol.
- Progress.Round: works on exact rationals; the last-bit rounding of a floating-point quotient near a tie is not represented.
- Progress.RunDemucs: assumes the events the child program emits, stems counted from 1 up to a positive total.
- JobService.CreateJob: is one atomic step there; its statements interleave in Admission.
- StorageCleanup.ObjectStore.ListObjects: a listing has finitely many pages.
- StorageCleanup.OthersRun: no other process completes a claim of this one, because a claim number is known only to the process that drew it.
- SubscriptionRuns.Next: numbers the subscription objects of one socket instead of holding references; the methods in JobSubscription work on the objects themselves and share its functions. Invalid client messages are one kind of event, the handshake is not modelled, and a closed socket drops messages.
- BrowserConnection.JobConnection: the texts shown to the user and the back-off delays are not modelled, only which timers are armed.
