// One row of transcription_jobs: the columns the queue decides on, and what each SQL
// statement writes to a row it has selected.
module Rows {
  import opened Base

  type Time = nat
  const SECOND: nat := 1_000_000

  datatype Status = Accepted | Downloading | Queued | Running | Done | Failed

  // "<worker_id>/<uuid>"; the empty lease_owner is NoLease. Serials stand for fresh UUIDs.
  datatype Lease = NoLease | Lease(worker: string, serial: nat)

  // One execution slot: worker_id and instance_id. "" is the instance of leases that
  // predate slot UUIDs.
  datatype Slot = Slot(worker: string, instance: string)

  datatype Job = Job(
    status: Status,
    attempts: nat,
    maxAttempts: nat,
    lease: Lease,
    leaseUntil: Option<Time>,
    slot: Slot,
    dispatch: Option<nat>,
    delivery: Option<nat>,
    createdAt: Time,
    startedAt: Option<Time>,
    attemptStartedAt: Option<Time>,
    finishedAt: Option<Time>,
    requestId: string,
    retain: bool,
    acknowledgedAt: Option<Time>,
    text: string,
    segments: string,
    resultPath: string,
    error: string,
    progress: real
  )

  datatype Options = Options(requestId: string, retain: bool)

  predicate Terminal(j: Job) {
    j.status.Done? || j.status.Failed?
  }

  predicate Uploading(j: Job) {
    j.status.Accepted? || j.status.Downloading?
  }

  predicate Unfinished(j: Job) {
    j.status.Queued? || j.status.Running?
  }

  // lease_expires_at > t; NULL compares as false.
  predicate Live(j: Job, t: Time) {
    j.leaseUntil.Some? && j.leaseUntil.value > t
  }

  // lease_expires_at IS NULL OR lease_expires_at < t: at equality a lease is neither
  // live nor expired.
  predicate Expired(j: Job, t: Time) {
    j.leaseUntil.None? || j.leaseUntil.value < t
  }

  predicate Executing(j: Job, t: Time) {
    j.status.Running? && Live(j, t)
  }

  function NewJob(maxAttempts: nat, opts: Options, now: Time): Job {
    Job(Accepted, 0, maxAttempts, NoLease, None, Slot("", ""), None, None,
        now, None, None, None, opts.requestId, opts.retain, None, "", "[]", "", "", 0.0)
  }

  function DownloadRow(j: Job): Job {
    j.(status := Downloading)
  }

  function QueueRow(j: Job): Job {
    j.(status := Queued, progress := 0.0, error := "")
  }

  function InterruptRow(j: Job): Job {
    j.(error := "upload_interrupted")
  }

  function FirstStart(j: Job, now: Time): Option<Time> {
    if j.startedAt.Some? then j.startedAt else Some(now)
  }

  // broker_start.sql; the trigger of migration 0004 stamps attempt_started_at.
  function StartRow(j: Job, lease: Lease, now: Time, until: Time, slot: Slot, delivery: nat): Job {
    j.(status := Running, attempts := j.attempts + 1, lease := lease, leaseUntil := Some(until),
    slot := slot, delivery := Some(delivery), startedAt := FirstStart(j, now),
    attemptStartedAt := Some(now), progress := 0.0, error := "")
  }

  // claim_slot.sql leaves delivery_id and progress_percent as they were.
  function ClaimRow(j: Job, lease: Lease, now: Time, until: Time, slot: Slot): Job {
    j.(status := Running, attempts := j.attempts + 1, lease := lease, leaseUntil := Some(until),
    slot := slot, startedAt := FirstStart(j, now), attemptStartedAt := Some(now), error := "")
  }

  predicate MayRenew(j: Job, lease: Lease, clock: Time) {
    j.lease == lease && Executing(j, clock)
  }

  function RenewRow(j: Job, until: Time, progress: real): Job {
    j.(leaseUntil := Some(until), progress := progress)
  }

  // complete.sql compares the lease with the start of its transaction, not with the clock.
  predicate MayComplete(j: Job, lease: Lease, now: Time) {
    j.lease == lease && Executing(j, now)
  }

  function CompleteRow(j: Job, now: Time, text: string, segments: string, path: string): Job {
    j.(status := Done, text := text, segments := segments, resultPath := path, progress := 100.0,
    error := "", lease := NoLease, leaseUntil := None, finishedAt := Some(now))
  }

  predicate MayFail(j: Job, lease: Lease, now: Time) {
    j.lease == lease && (Executing(j, now) || (lease.NoLease? && Uploading(j)))
  }

  predicate MayRetry(j: Job, retryable: bool) {
    retryable && j.attempts < j.maxAttempts
  }

  function FailRow(j: Job, now: Time, error: string, retryable: bool): Job {
    var retry := MayRetry(j, retryable);
    j.(status := if retry then Queued else Failed, error := error, progress := 0.0,
    lease := NoLease, leaseUntil := None, finishedAt := if retry then None else Some(now))
  }

  function CancelRow(j: Job, now: Time): Job {
    j.(status := Failed, error := "cancelled", progress := 0.0, finishedAt := Some(now),
    lease := NoLease, leaseUntil := None)
  }

  // reap.sql
  predicate MayReap(j: Job, now: Time) {
    j.status.Running? && j.attempts >= j.maxAttempts && Expired(j, now)
  }

  // reap.sql and broker_exhausted.sql write the same columns.
  function ExhaustRow(j: Job, now: Time): Job {
    j.(status := Failed, error := "attempts_exhausted", lease := NoLease, leaseUntil := None,
    finishedAt := Some(now))
  }

  // ack.sql: only the first acknowledgement sets the deadline's origin.
  function AckRow(j: Job, now: Time): Job {
    j.(acknowledgedAt := if j.acknowledgedAt.Some? then j.acknowledgedAt else Some(now))
  }

  // cleanup.sql
  predicate MayDelete(j: Job, now: Time, ttl: nat) {
    j.finishedAt.Some?
    && (if j.retain
        then j.acknowledgedAt.Some? && j.acknowledgedAt.value + ttl * SECOND < now
        else j.finishedAt.value + ttl * SECOND < now)
  }

  // Neither status nor attempts: the columns a statement may touch while the lifecycle rests.
  predicate SameLifecycle(o: Job, n: Job) {
    o.status == n.status && o.attempts == n.attempts
  }
}
