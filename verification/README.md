# Transcriber queue, updater and admission: models and proofs

This project models the parts of the transcription service that have to stay correct while
processes crash, messages repeat, replies get lost and clocks move on, and proves what they keep.
`dafny verify dfyconfig.toml` checks everything.

**The durable queue.** `Rows` holds one row of `transcription_jobs` and what each SQL statement
writes to it; `Queue` holds the transactions of `JobStore` as functions on a database value;
`Outcomes` says column by column, without those functions, what each transaction answers and leaves
behind; `Store` is the class `JobStore` itself, its methods proved branch by branch against both.
`Lifecycle` says what any step may do to any row. `Coordinator` is the state machine in
which all of them interleave: a transaction that holds the scheduler lock is split into its
statements, with the clock, the broker bookkeeping and every lock-free transaction free to come in
between, and every step carries both its transaction start (`NOW()`) and the current clock
(`clock_timestamp()`). On top of it stand `Fencing` (one result, dead tokens, bounded attempts),
`Scheduler` (the execution cap), `Consumers` (bounded admission), `Priority` (greedy pools, stuck
loops), `Tenure` (a granted lease is good until it ends, and a delivered result is the one that is
kept), `Turns` (in SQL mode every job can still be claimed and done), `Balances` and `Expiries` (the observation counters, with the trigger in `Observations`) and
`Retention`.

**Delivery.** `Protocol` puts the broker's copies, the consumers and a network that delays, repeats
and loses every call and reply around the coordinator. `Delivery` proves that no job is ever
stranded and that every acknowledgement is safe, `Ownership` that no two calls and no two consumers
hold the same token, `Backoff` that retries really wait, and `Progress` that from every reachable
state every job with attempts left can still be done. Because the
coordinator's part of such a run is a run of `Coordinator` (`Protocol.CoordinatorRun`), every
guarantee above holds end to end.

**The worker updater.** `Containers` is a Docker daemon whose containers drift on their own and
whose calls may fail or be cut off before or after they took effect. `Updater` is the class of
`worker_updater.py` over it: a crash is an ordinary way for every method to end, so what a method
ensures of every outcome is what a crash between any two of its actions leaves behind, in `recover`
as well as in `update`. `StrayDrain` follows
one worker through whole runs of both.

**Shared resources.** `Admission` is the byte budget of the job volume with its block rounding and
its unlocked directory scan, `UploadSlots` the upload slots with dying owners, `Publication` the
path of an upload from its session lock to its queued job, beside a running coordinator, `Intake`
that no upload is ever shut out of it, and `Drain` the threads of a draining worker with their marker file.

## What turned out to be false

- A ready report whose transaction starts before its slot's admission lapses and whose statement
  runs after it extends an admission that is already gone, past the pool's limit
  (`Consumers.LateReportBreaksBound`). `Consumers.ReportKeepsBoundIff` says of every report, and
  `Consumers.AdmissionBoundIff` of every run, exactly when the bound is kept. The execution cap does
  not depend on it.
- `docs/worker-priority.md` promises the marker only after every slot has withdrawn its readiness.
  Two events break this. The code sets the marker also when a withdrawal got no answer
  (`Drain.MarkerWithoutWithdrawal`), and then a marked process can still count as ready
  (`Drain.MarkedButReady`). And a ready report that the worker gave up on and that is carried out
  later undoes an answered withdrawal (`Drain.LateReportRevives`). Without the two the promise holds:
  an answered withdrawal is undone by nothing else (`Drain.WithdrawnIsOut`), and a marked process
  whose withdrawals were all answered, with no such report carried out, is out of service until its
  drain ends if and only if no such report is left to come (`Drain.MarkedOutOfService`).
  `Drain.RevivedOnlyByLateReport` and `Drain.MarkedOutOfServiceIff` say exactly, of every parked slot
  and of every marked process, what can still make them ready.
- A resume and a new drain that straddle the last slot's `mark_drained` leave every slot parked with
  no marker until the next resume (`Drain.MarkerLost`, reached in `Drain.ParkedButUnmarked`, and
  `Drain.MarkerStaysLost`); the marker is there if and only if that last call saw the drain event set
  (`Drain.MarkerComplete`).
- `recover` cancels a drain only if the container still runs the process the journal recorded, but
  the drain signal went to whichever process was running. A restart between the inspection and the
  signal leaves a worker draining (`StrayDrain.StrayReached`), and it stays so until somebody
  restarts it (`StrayDrain.StrayStays`). `StrayDrain.StrayIff` says exactly when, and
  `Updater.Updater.Recover` promises the same of every single recovery.
- If the `save` that ends `recover` has no effect, the journal on disk keeps an entry for a settled
  pair that memory has dropped (`StrayDrain.StaleReached`). It remains exactly in that case
  (`Updater.Updater.Forget`, `Updater.Updater.Recover`), the next update's first save replaces it,
  and a new updater process reads it back (`StrayDrain.StaleUntil`); recovering from it again
  removes and renames nothing (`Updater.Updater.Recover`).

## Model

| member | source | states |
|---|---|---|
| Coordinator.StepRows | whisper/storage.py:398-642 | Whatever step the coordinator takes, each job row is created fresh, deleted past retention, left alone, or changed in one of the twelve ways of the lifecycle, with its guard |
| Coordinator.RunInv | whisper/storage.py:398-459 | In every reachable state, mid-transaction ones included, each row, its message in the outbox and what an open `begin_attempt` has checked are consistent |
| Coordinator.LockedRowKept | whisper/storage.py:401-405 | While `begin_attempt` is between its statements nobody else changes or deletes its job's row |
| Lifecycle.RowUpdateKeeps | whisper/sql/fail.sql:1-8 | Every row update keeps the row invariant: leases exactly while running, attempts within bounds, finished_at exactly when terminal, message older than its attempt's token |
| Lifecycle.RankDecreases | whisper/sql/claim_slot.sql:1-13 | Every change of status or attempts strictly lowers a measure on remaining attempts and status; other updates keep it |
| Fencing.LifecycleBound | whisper/sql/reap.sql:1-6 | In any run a job changes status or attempts at most 2 * max_attempts + 3 times |
| Fencing.AttemptsAreTokens | whisper/sql/broker_start.sql:1-7 | attempts is the number of distinct lease tokens ever issued for the job, never above max_attempts, and below it while queued |
| Fencing.OneResult | whisper/sql/complete.sql:1-6 | Over a whole run at most one Complete is accepted for a job, and its token is the newest one issued |
| Fencing.OldTokensRefused | whisper/sql/heartbeat.sql:1-5 | Once a newer attempt has started, every older token is refused by heartbeat, complete and fail in every later state and for every transaction time |
| Fencing.OutcomeKept | whisper/sql/fail.sql:6-8 | A done or failed row keeps status, text, segments, error, finish time and first acknowledgement until it is deleted |
| Fencing.GoneForGood | whisper/sql/cleanup.sql:1-6 | A deleted job never reappears |
| Tenure.StartGrants | whisper/sql/broker_start.sql:1-7 | A start at clock c issues a new token that heartbeat, complete and fail accept in every later state of the run before c + lease_seconds, unless the attempt itself delivered its outcome or the job was cancelled: nothing else takes the job away |
| Tenure.RenewalGrants | whisper/sql/heartbeat.sql:1-5 | An accepted heartbeat at clock c extends that to c + lease_seconds |
| Tenure.ResultIsDelivered | whisper/sql/complete.sql:1-6 | In every run the row of a done job holds the text, segments, path and time of an accepted Complete, and no other Complete was ever accepted for the job |
| Tenure.DeliveredIsKept | whisper/storage.py:598-615 | An accepted Complete is never lost: what it delivered is in the row until that is deleted |
| Scheduler.ExecutionCap | whisper/storage.py:523-548 | At every moment of every run, in both modes, a pool has at most max_concurrency live leases and no slot holds two |
| Scheduler.StartSlots | whisper/sql/broker_capacity.sql:5-7 | A start never gives a slot a second live lease, although its checks ran at earlier clock readings |
| Scheduler.StartCap | whisper/sql/select_worker.sql:9-22 | A start keeps the cap, although the clock moved since its selection |
| Consumers.AdmissionBoundIff | whisper/sql/broker_admit.sql:1-18 | Over a whole run, slots given away stay within the pool up to any state if and only if no report before it readmits a lapsed slot of a pool that is full without it |
| Consumers.AdmissionNeverExceeds | whisper/sql/broker_admit.sql:1-18 | Under exactly that condition, admitted ready slots and live-lease slots together never exceed the pool |
| Consumers.AdmittedIdleSlotFits | whisper/storage.py:435-444 | Under the same condition an admitted idle slot always passes the capacity test of `begin_attempt`, by counting distinct slots |
| Consumers.ReportKeepsBoundIff | whisper/sql/report_availability.sql:1-8 | A report, however late, keeps the admission bound if and only if it does not readmit a lapsed slot of a pool that is full without it |
| Consumers.LateReportBreaksBound | whisper/storage.py:495-512 | A concrete run in which a late report admits two slots of a pool of one |
| Priority.GreedyFill | whisper/sql/select_worker.sql:9-24 | From an idle system with every slot at work or polling and no lease ending, a pool holds a lease only while every strictly better pool holds min(capacity, slots) leases, for runs of any length |
| Priority.NoEligibleSlotMeansFull | whisper/sql/select_worker.sql:14-21 | A pool whose idle slots poll and that has no eligible slot is at its capacity or has a lease in each of its slots |
| Priority.BestTierSelected | whisper/sql/select_worker.sql:23-24 | If any slot is eligible, a request from some slot is selected |
| Priority.SelectedClaimSucceeds | whisper/sql/claim_slot.sql:1-7 | A selected request takes a job whenever an unlocked claimable one exists |
| Priority.StuckLoopStopsReserving | whisper/sql/request_work.sql:1-3 | A slot that makes no claim call is not eligible once its demand TTL has passed, however many ready reports arrive |
| Outcomes.ClaimServed | whisper/storage.py:514-573 | A claim call gets a job whenever its slot is ready and idle, its pool has room and no slot of a better pool waits, if a job is available that nobody has locked; asking and selecting may fall anywhere within the demand TTL |
| Turns.EveryJobCanBeClaimed | whisper/storage.py:514-573 | In SQL mode every run that leaves a job queued or running with attempts left has a continuation of 9 steps, by any slot of any pool with capacity, that ends with the job done and any given result stored |
| Balances.CountersBalance | whisper/sql/migrations/0004_observability.sql:44-92 | After any run: submitted = completed + failed + cancelled + open rows; attempts = completed + attempt failures + reclaimed leases + cancelled while running + running; attempts = first starts + retries |
| Expiries.ExpiriesBalance | whisper/sql/migrations/0004_observability.sql:65-69 | After any run: lease expirations = reclaimed leases + leases whose expiry ended their job; attempts + the latter = completed + attempt failures + lease expirations + cancelled while running + running |
| Balances.CleanupBalanced | whisper/sql/cleanup.sql:1-6 | Reaping and TTL deletion keep the balance |
| Observations.EventCounts | whisper/sql/migrations/0004_observability.sql:55-85 | How often the trigger observes each event for each change of a row |
| Observations.TotalRecord | whisper/sql/migrations/0004_observability.sql:32-41 | The total of an event over all workers moves by exactly the number of its observations |
| Retention.DeletedOnlyAfterRetention | whisper/sql/cleanup.sql:1-6 | A job that is gone was deleted by a cleanup after it finished and past its retention, counted from the first Ack if the client asked to keep it |
| Retention.RetainedUntilAck | whisper/sql/cleanup.sql:3-5 | A retained job without an Ack survives every run of steps that are not its Ack |
| Retention.KeptAfterAck | whisper/sql/ack.sql:1-4 | After the first Ack the job stays for the whole TTL, and later Acks never move the deadline |
| Retention.AckedIsTerminal | whisper/sql/ack.sql:3-3 | Only terminal jobs are acknowledged, and finished_at is set exactly when the status is terminal |
| Bulk.ReapRows | whisper/sql/reap.sql:1-6 | The bulk reaping fails exactly the running rows with exhausted attempts and an expired lease, and changes no other row |
| Bulk.ReconcileRows | whisper/sql/broker_reconcile.sql:1-5 | Reconcile gives every queued or expired job a message of its own and touches no live attempt |
| Bulk.CandidateExists | whisper/sql/claim_slot.sql:2-6 | If an unlocked claimable row exists, a first one in queue order exists |
| Bulk.NextExists | whisper/sql/outbox_next.sql:1-4 | If a due unlocked message exists, a next one to publish exists |
| Delivery.NoStrandedWork | whisper/storage.py:343-373 | In every reachable state each queued or running job's current message is unpublished in the outbox or carried by a broker copy, through crashes, lost confirms, lost replies, disconnects and redeliveries |
| Delivery.DiscardIsForever | whisper/storage.py:406-431 | A message once answered with discard is never again what a queued or running job waits for |
| Delivery.AcknowledgementIsSafe | whisper/broker.py:313-335 | When an acknowledgement reaches the broker, its message is no obligation or another copy remains |
| Progress.EveryJobCanFinish | whisper/storage.py:343-459 | In RabbitMQ mode every end-to-end run, whatever was lost or crashed, that leaves a job queued or running with attempts left has a continuation of at most 15 moves, on any slot of any pool with capacity, that ends with the job done and any given result stored |
| Ownership.OneCallPerToken | whisper/storage.py:413-423 | Of all BeginAttempt calls of a run, repeated and delayed ones included, only one is ever answered with a given token |
| Ownership.OneConsumerPerToken | whisper/remote_worker.py:475-497 | No two consumers ever work on the same attempt |
| Protocol.AcceptedSupersedes | whisper/storage.py:598-642 | An accepted Complete or Fail leaves the job with no obligation as old as its own attempt |
| Protocol.SupersededStays | whisper/storage.py:409-411 | That stays true in every later state |
| Protocol.DiscardMeansReleased | whisper/storage.py:406-431 | `begin_attempt` discards only messages that are no obligation |
| Protocol.CoordinatorRun | whisper/remote_worker.py:475-497 | Leaving out broker and consumers, every end-to-end run is a coordinator run with the same database |
| Backoff.BackoffEnforced | whisper/storage.py:617-642 | After a retryable failure accepted at t with a attempts used, the next start is not before t + 2^min(a, 8) seconds, whatever old copies circulate |
| Backoff.StartNeedsDue | whisper/sql/outbox_next.sql:1-4 | A start needs a message whose due time has come |
| Backoff.FailureOutcome | whisper/sql/fail.sql:1-8 | An accepted failure that is retryable with attempts left leaves the job queued with a fresh message of its own, unpublished and due 2^min(a, 8) seconds later; every other leaves it failed |
| Store.JobStore.CreateJob | whisper/storage.py:177-230 | Inserts one fresh row with the request ID and the retention asked for, changes nothing else and observes the submission, or refuses a request ID that is already there, and only that |
| Store.JobStore.MarkQueued | whisper/storage.py:322-348 | Queues a job if and only if it is still uploading and, in RabbitMQ mode, a fresh message due at once in the same transaction; says whether it did |
| Store.JobStore.Dispatch | whisper/storage.py:350-359 | Gives a job a fresh message, due after the delay |
| Store.JobStore.PublishNext | whisper/storage.py:361-373 | Publishes the earliest due message nobody has locked, whenever there is one, and marks it as published then if and only if it was confirmed |
| Store.JobStore.RegisterConsumer | whisper/storage.py:375-396 | Admits a slot if and only if it is ready and already given away or within the pool, until its readiness ends, and answers with 10000 minus the policy's priority |
| Store.JobStore.BeginAttempt | whisper/storage.py:398-459 | Column by column: drops an outdated delivery, repeats the token to the delivery and slot that hold it, ends an exhausted job, postpones without room, and otherwise grants a fresh token until lease_seconds after the clock of the last statement, each answer exactly in its case; keeps the store consistent |
| Store.JobStore.ClaimNextJob | whisper/storage.py:514-573 | A ready slot asks for work until its demand TTL ends; it is given the oldest available unlocked job, with a fresh token for the full lease time, if and only if there is one and no slot of a better pool waits; without one the reaping and the request stay |
| Store.JobStore.Heartbeat | whisper/storage.py:582-596 | Accepted if and only if the token's lease is live by the clock; then the lease runs lease_seconds from that clock and no other column but the progress changes, otherwise nothing does |
| Store.JobStore.CompleteJob | whisper/storage.py:598-615 | Accepted if and only if the token's lease was live when the transaction started; then the row is done with exactly the delivered text, segments and path, otherwise nothing changes |
| Store.JobStore.FailJob | whisper/storage.py:617-642 | Accepted under the owner and expiry fence; a retryable failure is queued again if and only if attempts are left, with a message due 2^min(attempts, 8) seconds later, and every other one is final |
| Store.JobStore.CancelJob | whisper/storage.py:472-493 | Every job that is not done or failed, queued and uploading ones included, ends failed as cancelled and without a lease; nothing else changes |
| Store.JobStore.ReportAvailability | whisper/storage.py:495-512 | Drops slots silent for a day; the report sets the slot's readiness for the availability TTL or ends it, moves a running admission along, and touches demand only for a new row |
| Store.JobStore.CleanupExpiredJobs | whisper/storage.py:644-656 | Ends exactly the running rows out of attempts and lease, deletes exactly the rows past retention with their messages, and changes nothing else |
| Store.JobStore.ObserveJob | whisper/sql/migrations/0004_observability.sql:53-86 | The trigger's branches record exactly the events of the change |
| Updater.Updater.Recover | scripts/worker_updater.py:204-240 | Under every outcome, a crash included, one of the pair exists, the old container is gone only behind a managed replacement seen healthy under the name, and no other container and no unmanaged one is touched; refusals touch nothing, and an unmanaged container in the way is never acted on. A normal return leaves no entry, and what it did is decided by who held the name when it looked: the old container is kept, told to resume if it still is the recorded process; a managed healthy one is committed, the image not quarantined; anything else is replaced by the old container, running, and the image quarantined. A settled pair stays settled; the entry on disk goes exactly when the last save takes effect |
| Updater.Updater.KeepOld | scripts/worker_updater.py:210-217 | The old container in its place is started, told to resume or left alone; left alone, nothing at all is done; afterwards it drains if and only if it drained before in another process than the recorded one |
| Updater.Updater.Forget | scripts/worker_updater.py:239-240 | The settled pair is dropped from memory, and from disk exactly when the save takes effect |
| Updater.Updater.Update | scripts/worker_updater.py:242-318 | Quarantined, current, undrainable and unhealthy workers are left alone, and only they: every other update that returns normally has recorded its entry, told the worker to drain and read the marker until it was there or the deadline passed; without the marker it left the old container in its place; with it, it stopped that, waited for a new container under its name until that was healthy, stopped, gone or too slow, and committed it if it was then healthy and rolled back otherwise. Under every outcome the pair is accounted for, and it is settled or the journal on disk knows it; no other container and no unmanaged one is touched; nothing happens before the entry is on disk |
| Updater.Updater.Settle | scripts/worker_updater.py:210-238 | The three branches of recovery: keep, commit, roll back; it refuses if and only if one of the two containers is unmanaged, or the old one is gone and no healthy replacement stands in its place; unmanaged containers are left alone |
| Updater.Updater.Drain | scripts/worker_updater.py:270-276 | After the signal the marker is read at least once and until it is there or the deadline passes; a drain is reported if and only if the last reading showed it |
| Updater.Updater.Swap | scripts/worker_updater.py:286-301 | Stops only a container seen drained; on success the old one was stopped and has the rollback name, and a new one runs under the service name; the backup survives every other end |
| Updater.Updater.CreateNew | scripts/worker_updater.py:288-301 | On success a container that did not exist before has the service name and runs |
| Updater.Updater.AwaitHealth | scripts/worker_updater.py:302-312 | The wait ends early only for a container that is healthy, stopped or gone, and otherwise uses all the inspections its deadline leaves |
| Updater.Lifetime | scripts/worker_updater.py:320-334 | Over any number of reconcile rounds for any set of services that share one journal, each round possibly cut short at any action, every service has a managed container under its name or the durable journal names a managed backup for it |
| StrayDrain.StrayIff | scripts/worker_updater.py:210-217 | In every run of updates, recoveries, crashes, restarts and stops of a worker, a recovery that ends leaves it draining if and only if the process the drain signal reached still runs and is not the one the journal recorded |
| StrayDrain.StrayReached | scripts/worker_updater.py:261-276 | A run without a crash in which a worker restarts between its inspection and SIGUSR1 and is left draining with an empty journal |
| StrayDrain.StrayStays | scripts/worker_updater.py:254-258 | No later reconcile ends that drain: the worker is unhealthy, so updates pass it by until somebody restarts or stops it |
| StrayDrain.AsRecover | scripts/worker_updater.py:204-240 | A recovery of that state machine does to the drain what `Updater.Updater.Recover` promises, if the worker only drifted before a call and nothing happened to it where none is made |
| StrayDrain.EntryRemainsIff | scripts/worker_updater.py:239-240 | After an ended recovery the entry is on disk if and only if its save had no effect |
| StrayDrain.StaleUntil | scripts/worker_updater.py:204-207 | A stale entry stays as it is until an update's first save replaces it or a new process reads it back |
| StrayDrain.StaleReached | scripts/worker_updater.py:239-240 | A run that leaves one |
| Containers.Docker.Halt | scripts/worker_updater.py:286-286 | Stopping a container requires that its drain marker was seen |
| Admission.RoundUpSubadditive | whisper/admission.py:93-95 | Appending allocates no more than the appended bytes would need in a file of their own |
| Admission.Volume.StorageBytes | whisper/admission.py:58-74 | A scan that races with deletions measures no less than what is left and no more than what was there; it fails only if a directory vanished |
| Admission.Volume.Write | whisper/admission.py:128-136 | A chunk is written only if the accounted total stays within the limit afterwards, whole or partial, and goes to the end of its file alone; it is refused for capacity only if the files and the chunk together exceed the limit or the reserve does not suffice, and then nothing is added |
| Admission.Volume.Publish | whisper/server.py:177-178 | Renaming a partial file to its input never raises the accounted total |
| Admission.AnyWriters | whisper/admission.py:90-98 | Any number of writers, renames and deletions in any order keep the total within the limit |
| UploadSlots.Slots.ActiveUploads | whisper/admission.py:100-110 | Counts at least the live slots and at most those held at the start; unlinks only tokens of dead owners, and all that were dead at the start |
| UploadSlots.Slots.Begin | whisper/admission.py:112-120 | Admits within the limit, turns away for slots only if all were held, survives death between creating and locking a token |
| UploadSlots.Slots.End | whisper/admission.py:121-126 | Ends one upload and removes its token |
| UploadSlots.AnyProcesses | whisper/admission.py:112-126 | Over any interleaving of entries, exits and deaths, uploads in progress never outnumber concurrent_uploads |
| Publication.OneJobPerRequest | whisper/storage.py:247-304 | A non-empty request ID names at most one existing job, and the session lock alone keeps the unique index from ever refusing an insert |
| Publication.InputIsOneStream | whisper/server.py:143-230 | Every queued, running or done job's input file is exactly one call's complete stream, through crashes, interrupted streams and duplicates |
| Publication.InputUnchanged | whisper/server.py:220-220 | From the moment a job is queued its input never changes while its row exists |
| Publication.InsertKeeps | whisper/storage.py:283-292 | A call that found no row under its lock inserts the only one, and nobody else uploads for it |
| Publication.OnlyMarkQueues | whisper/storage.py:322-340 | No step but `mark_queued` takes an uploading job into the queue |
| Intake.EveryUploadCanFinish | whisper/storage.py:232-304 | Every run, whatever crashed in it, has a continuation of at most 12 moves in which a new call with any options and any stream gets exactly that stream queued, as the input of a new job if the request ID is new and of the job it names if that is still uploading with the same retention |
| Drain.MarkerSound | whisper/remote_worker.py:549-558 | While the marker exists every slot is parked and has no task in flight, for every interleaving of loops, reporters and signals |
| Drain.MarkerComplete | whisper/remote_worker.py:549-558 | A fully parked running pool has its marker if and only if the last `mark_drained` saw the drain event set |
| Drain.MarkerWithoutWithdrawal | whisper/remote_worker.py:213-217 | From every reachable state in which the last slot's withdrawal is on the wire, the marker may appear with that withdrawal unanswered and readiness as it was |
| Drain.MarkedButReady | whisper/remote_worker.py:213-217 | A reachable state with the marker set and the slot ready, its withdrawal unanswered |
| Drain.MarkedOutOfServiceIff | whisper/remote_worker.py:208-217 | Of every marked process, answered or not: it is out of service until its drain ends if and only if none of its slots counts as ready and no ready report given up on is left to come |
| Drain.MarkerLost | whisper/remote_worker.py:217-219 | From every reachable state with the last slot about to mark, a resume and a new drain around that mark lead to a reachable state with every slot parked, the drain on and no marker |
| Drain.ParkedButUnmarked | whisper/remote_worker.py:549-558 | Such a state is reached from the start |
| Drain.MarkerStaysLost | whisper/remote_worker.py:218-219 | The marker then does not come back before the next resume or stop |
| Drain.ReadyOnlyByReport | whisper/remote_worker.py:289-302 | From any state, a slot whose drained flag is up can be ready before its drain ends if and only if it is ready or a ready report is on the wire, abandoned or not |
| Drain.RevivedOnlyByLateReport | whisper/remote_worker.py:289-302 | In every run, a slot that is parked, its withdrawal answered or not, or whose withdrawal was answered, can be ready before its drain ends if and only if it is ready or an abandoned ready report is still to be carried out |
| Drain.WithdrawnIsOut | whisper/remote_worker.py:208-217 | In every run, a slot whose withdrawal was answered is ready only if a ready report that the worker gave up on was carried out within the same drain |
| Drain.MarkedOutOfService | whisper/remote_worker.py:208-217 | A marked process whose withdrawals were all answered, with no such report carried out so far, is out of service until its drain ends if and only if none is left to come |
| Drain.NothingGivenUp | whisper/remote_worker.py:289-302 | If no ready report was ever given up on, an answered withdrawal holds until the drain ends |
| Drain.LateReportRevives | whisper/remote_worker.py:330-346 | A reachable state with the marker set, the slot parked and withdrawn, and the coordinator counting it ready |

## Left out

- Consumers.AdmissionNeverExceeds: holds for runs in which no report readmits a lapsed slot of a full pool; `Consumers.AdmissionBoundIff` shows that the others do break the bound.
- Consumers.AdmittedIdleSlotFits: holds under the same condition.
- Backoff.BackoffEnforced: excludes `reconcile` between the failure and the start, which republishes at once by design.
- Priority.StuckLoopStopsReserving: a report that inserts the slot's row anew grants demand again, so such reports are excluded after the reference state.
- Store.JobStore.MarkQueued: returns whether the job was queued, not its position; queue positions are not modelled.
- Store.JobStore.ReportAvailability: the report is one atomic step with its own transaction time; the `transcription_worker_reports` table is not modelled.
- Store.JobStore.ObserveJob: counts observations; the sums of seconds, histogram buckets and `last_at` are not modelled.
- Updater.Updater.Recover: the quarantine is claimed for rollbacks that ran to completion; a crash between the rename back and the saved journal sends the next recovery down the first branch, which does not quarantine.
- StrayDrain.StrayIff: follows one worker through deferred updates; once its marker was seen the replacement takes over, which `Updater` covers, and the signals come from the updater alone.
- StrayDrain.StrayStays: relies on the container's health check, through which a draining worker reports itself unhealthy.
- Admission.Volume.Write: the free-space reserve is an arbitrary verdict, and a file's allocation is its size rounded up to one block size; sparse files and writers that ignore the lock are not modelled.
- UploadSlots.Slots.Begin: locking a fresh token file is assumed to succeed.
- Drain.MarkerSound: creating and removing the marker file is assumed to succeed; reporting health may fail.
- Drain.RevivedOnlyByLateReport: RegisterConsumer, which a ready report calls under the same lock, is not modelled; it changes admission, not readiness.
- Publication.InputIsOneStream: a stream counts as complete when the source's test of the call context says so, which is trusted; the session lock is assumed to last as long as its call; directories, fsync and the other audio options of a request are not modelled.
- PostgreSQL and RabbitMQ are taken as correct: row and advisory locks, truthful confirms, a retry queue that may duplicate but not lose. Each statement reads `clock_timestamp()` once, and bulk statements visit their rows in key order.
- Random identifiers are a counter: fresh and increasing, never guessed.
- SQL mode without worker policies, mixed or switching backends, policy changes during a run and migrations.
- gRPC, TLS, authentication, message parsing, telemetry, metrics rendering and configuration.
- Whisper inference is an arbitrary result, error or stop, and container configuration copying and release labels are not modelled.
- Progress.EveryJobCanFinish: says that the job can be done, not that it will be; other publishers may hold the rest of the outbox meanwhile.
- Turns.EveryJobCanBeClaimed: likewise; other transactions may hold the other rows meanwhile.
- Intake.EveryUploadCanFinish: likewise; the byte budget and the upload slots are modelled apart.
- Updater.Updater.Update: how often the marker and the new container can be looked at before their deadlines or a stop request is a parameter.
- Fairness: apart from the bound on lifecycle changes, nothing is claimed about when work happens.
