// What any one step of the coordinator may do to one job row, the invariant of a row, and
// the consequences that need nothing but the row.
module Lifecycle {
  import opened Base
  import opened Rows
  import opened Queue

  // What one step sees: the clock, the identities it may draw (lo <= id < hi), and whether it
  // is the step that starts an attempt.
  datatype Scope = Scope(clock: Time, lo: nat, hi: nat, starts: bool)

  predicate Drawn(sc: Scope, id: Option<nat>) {
    id.Some? && sc.lo <= id.value < sc.hi
  }

  predicate Finishes(sc: Scope, n: Job) {
    n.finishedAt.Some? && n.finishedAt.value <= sc.clock
  }

  predicate Downloads(o: Job, n: Job) {
    Uploading(o) && n == DownloadRow(o)
  }

  predicate Interrupts(o: Job, n: Job) {
    Uploading(o) && n == InterruptRow(o)
  }

  predicate Queues(cfg: Config, sc: Scope, o: Job, n: Job) {
    Uploading(o) && n == QueueRow(o).(dispatch := n.dispatch)
    && (if cfg.rabbit then Drawn(sc, n.dispatch) else n.dispatch == o.dispatch)
  }

  predicate Starts(cfg: Config, sc: Scope, o: Job, n: Job) {
    && sc.starts
    && Unfinished(o) && !Executing(o, sc.clock) && o.attempts < o.maxAttempts
    && n.lease.Lease? && sc.lo <= n.lease.serial < sc.hi && n.lease.worker == n.slot.worker
    && n.attemptStartedAt.Some? && n.attemptStartedAt.value <= sc.clock
    && var now, until := n.attemptStartedAt.value, sc.clock + cfg.leaseSeconds * SECOND;
    if cfg.rabbit
    then n.delivery.Some? && n == StartRow(o, n.lease, now, until, n.slot, n.delivery.value)
    else n == ClaimRow(o, n.lease, now, until, n.slot)
  }

  predicate Renews(cfg: Config, sc: Scope, o: Job, n: Job) {
    Executing(o, sc.clock) && n == RenewRow(o, sc.clock + cfg.leaseSeconds * SECOND, n.progress)
  }

  predicate Completes(sc: Scope, o: Job, n: Job) {
    Finishes(sc, n) && Executing(o, n.finishedAt.value)
    && n == CompleteRow(o, n.finishedAt.value, n.text, n.segments, n.resultPath)
  }

  predicate FailsForGood(sc: Scope, o: Job, n: Job) {
    Finishes(sc, n) && (Executing(o, n.finishedAt.value) || (Uploading(o) && o.lease.NoLease?))
    && n.error != "cancelled"
    && n == FailRow(o, n.finishedAt.value, n.error, false)
  }

  predicate FailsAndRetries(cfg: Config, sc: Scope, o: Job, n: Job) {
    o.status.Running? && o.attempts < o.maxAttempts && n.error != "cancelled"
    && n == FailRow(o, 0, n.error, true).(dispatch := n.dispatch)
    && (if cfg.rabbit then Drawn(sc, n.dispatch) else n.dispatch == o.dispatch)
  }

  predicate Cancels(sc: Scope, o: Job, n: Job) {
    Finishes(sc, n) && !Terminal(o) && n == CancelRow(o, n.finishedAt.value)
  }

  predicate Exhausts(sc: Scope, o: Job, n: Job) {
    Finishes(sc, n) && Unfinished(o) && !Executing(o, sc.clock) && o.attempts >= o.maxAttempts
    && n == ExhaustRow(o, n.finishedAt.value)
  }

  predicate Acknowledges(sc: Scope, o: Job, n: Job) {
    Terminal(o) && n.acknowledgedAt.Some? && n.acknowledgedAt.value <= sc.clock
    && n == AckRow(o, n.acknowledgedAt.value)
  }

  predicate Redispatches(sc: Scope, o: Job, n: Job) {
    Unfinished(o) && (Detachable(o, sc.clock) || o.dispatch.None?) && Drawn(sc, n.dispatch)
    && n == o.(dispatch := n.dispatch)
  }

  predicate RowUpdate(cfg: Config, sc: Scope, o: Job, n: Job) {
    || Downloads(o, n) || Interrupts(o, n) || Queues(cfg, sc, o, n)
    || Starts(cfg, sc, o, n) || Renews(cfg, sc, o, n)
    || Completes(sc, o, n) || FailsForGood(sc, o, n) || FailsAndRetries(cfg, sc, o, n)
    || Cancels(sc, o, n) || Exhausts(sc, o, n)
    || Acknowledges(sc, o, n) || Redispatches(sc, o, n)
  }

  predicate FreshRow(cfg: Config, sc: Scope, n: Job) {
    n.createdAt <= sc.clock && n == NewJob(cfg.maxAttempts, Options(n.requestId, n.retain), n.createdAt)
  }

  // old and new are the row of one job id before and after a step.
  predicate RowStep(cfg: Config, sc: Scope, id: nat, before: Option<Job>, after: Option<Job>) {
    match (before, after)
    case (None, None) => true
    case (None, Some(n)) => sc.lo <= id < sc.hi && FreshRow(cfg, sc, n)
    case (Some(o), None) => MayDelete(o, sc.clock, cfg.jobTtl)
    case (Some(o), Some(n)) => o == n || RowUpdate(cfg, sc, o, n)
  }

  // ----- the invariant of a row -----

  predicate LeaseInv(nextId: nat, j: Job) {
    && (j.status.Running? ==> j.lease.Lease? && j.lease.serial < nextId && j.leaseUntil.Some?
                              && j.lease.worker == j.slot.worker && j.attemptStartedAt.Some?)
    && (!j.status.Running? ==> j.lease.NoLease? && j.leaseUntil.None?)
  }

  predicate AttemptInv(cfg: Config, j: Job) {
    && j.maxAttempts == cfg.maxAttempts && j.attempts <= j.maxAttempts
    && (Uploading(j) ==> j.attempts == 0)
    && (j.status.Queued? ==> j.attempts < j.maxAttempts)
    && (j.status.Running? ==> j.attempts >= 1)
  }

  predicate OutcomeInv(clock: Time, j: Job) {
    && (j.finishedAt.Some? <==> Terminal(j))
    && (j.finishedAt.Some? ==> j.finishedAt.value <= clock)
    && (j.acknowledgedAt.Some? ==> Terminal(j) && j.acknowledgedAt.value <= clock)
    && (!j.status.Done? ==> j.text == "" && j.segments == "[]")
    && j.createdAt <= clock
  }

  // The current message identity precedes the token of the attempt it started.
  predicate DispatchInv(cfg: Config, clock: Time, nextId: nat, j: Job) {
    && (Uploading(j) ==> j.dispatch.None?)
    && (j.dispatch.Some? ==> j.dispatch.value < nextId)
    && (cfg.rabbit && Unfinished(j) ==> j.dispatch.Some?)
    && (cfg.rabbit && j.status.Running? && !Expired(j, clock) ==>
          j.lease.Lease? && j.dispatch.value < j.lease.serial)
  }

  predicate RowInv(cfg: Config, clock: Time, nextId: nat, j: Job) {
    LeaseInv(nextId, j) && AttemptInv(cfg, j) && OutcomeInv(clock, j) && DispatchInv(cfg, clock, nextId, j)
  }

  predicate Uploads(cfg: Config, sc: Scope, o: Job, n: Job) {
    Downloads(o, n) || Interrupts(o, n) || Queues(cfg, sc, o, n)
  }

  predicate Executes(cfg: Config, sc: Scope, o: Job, n: Job) {
    Starts(cfg, sc, o, n) || Renews(cfg, sc, o, n) || FailsAndRetries(cfg, sc, o, n) || Redispatches(sc, o, n)
  }

  lemma UploadKeeps(cfg: Config, sc: Scope, clock: Time, o: Job, n: Job)
    requires ValidConfig(cfg) && Uploads(cfg, sc, o, n)
    requires RowInv(cfg, sc.clock, sc.lo, o)
    requires sc.lo <= sc.hi && sc.clock <= clock
    ensures RowInv(cfg, clock, sc.hi, n)
  {
    if Downloads(o, n) || Interrupts(o, n) {
    } else {
      assert Queues(cfg, sc, o, n);
    }
  }

  lemma ExecutionKeeps(cfg: Config, sc: Scope, clock: Time, o: Job, n: Job)
    requires ValidConfig(cfg) && Executes(cfg, sc, o, n)
    requires RowInv(cfg, sc.clock, sc.lo, o)
    requires sc.lo <= sc.hi && sc.clock <= clock
    ensures RowInv(cfg, clock, sc.hi, n)
  {
    if Starts(cfg, sc, o, n) {
    } else if Renews(cfg, sc, o, n) {
    } else if FailsAndRetries(cfg, sc, o, n) {
    } else {
      assert Redispatches(sc, o, n);
    }
  }

  predicate Ends(sc: Scope, o: Job, n: Job) {
    Completes(sc, o, n) || FailsForGood(sc, o, n) || Cancels(sc, o, n) || Exhausts(sc, o, n) || Acknowledges(sc, o, n)
  }

  lemma EndKeeps(cfg: Config, sc: Scope, clock: Time, o: Job, n: Job)
    requires ValidConfig(cfg) && Ends(sc, o, n)
    requires RowInv(cfg, sc.clock, sc.lo, o)
    requires sc.lo <= sc.hi && sc.clock <= clock
    ensures RowInv(cfg, clock, sc.hi, n)
  {
    if Completes(sc, o, n) {
    } else if FailsForGood(sc, o, n) {
    } else if Cancels(sc, o, n) {
    } else if Exhausts(sc, o, n) {
    } else {
      assert Acknowledges(sc, o, n);
    }
  }

  lemma RowUpdateKeeps(cfg: Config, sc: Scope, clock: Time, o: Job, n: Job)
    requires ValidConfig(cfg) && RowUpdate(cfg, sc, o, n)
    requires RowInv(cfg, sc.clock, sc.lo, o)
    requires sc.lo <= sc.hi && sc.clock <= clock
    ensures RowInv(cfg, clock, sc.hi, n)
  {
    if Uploads(cfg, sc, o, n) {
      UploadKeeps(cfg, sc, clock, o, n);
    } else if Executes(cfg, sc, o, n) {
      ExecutionKeeps(cfg, sc, clock, o, n);
    } else {
      EndKeeps(cfg, sc, clock, o, n);
    }
  }

  lemma RowInvKept(cfg: Config, sc: Scope, clock: Time, id: nat, before: Option<Job>, n: Job)
    requires ValidConfig(cfg) && RowStep(cfg, sc, id, before, Some(n))
    requires before.Some? ==> RowInv(cfg, sc.clock, sc.lo, before.value)
    requires sc.lo <= sc.hi && sc.clock <= clock
    ensures RowInv(cfg, clock, sc.hi, n)
  {
    if before.Some? && before.value != n {
      RowUpdateKeeps(cfg, sc, clock, before.value, n);
    }
  }

  // ----- termination of the lifecycle -----

  // Strictly smaller after every change of status or attempts.
  function Rank(j: Job): nat
    requires j.attempts <= j.maxAttempts
  {
    2 * (j.maxAttempts - j.attempts)
    + match j.status
      case Accepted => 3
      case Downloading => 2
      case Queued => 1
      case Running => 2
      case Done => 0
      case Failed => 0
  }

  // Uploads, reclaims, retries and outcomes all spend rank; nothing earns it back.
  lemma RankDecreases(cfg: Config, sc: Scope, id: nat, o: Job, n: Job)
    requires ValidConfig(cfg) && RowStep(cfg, sc, id, Some(o), Some(n))
    requires RowInv(cfg, sc.clock, sc.lo, o)
    ensures n.attempts <= n.maxAttempts
    ensures if SameLifecycle(o, n) then Rank(n) == Rank(o) else Rank(n) < Rank(o)
    ensures Rank(o) <= 2 * cfg.maxAttempts + 3
  {
    if o != n {
      if Downloads(o, n) || Interrupts(o, n) || Queues(cfg, sc, o, n) {
      } else if Starts(cfg, sc, o, n) {
      } else if Renews(cfg, sc, o, n) {
      } else if Completes(sc, o, n) || FailsForGood(sc, o, n) {
      } else if FailsAndRetries(cfg, sc, o, n) {
      } else if Cancels(sc, o, n) || Exhausts(sc, o, n) {
      } else {
        assert Acknowledges(sc, o, n) || Redispatches(sc, o, n);
      }
    }
  }

  // ----- what never changes again -----

  // The published outcome of a finished job.
  predicate SameOutcome(o: Job, n: Job) {
    n.status == o.status && n.text == o.text && n.segments == o.segments && n.error == o.error
    && n.resultPath == o.resultPath && n.finishedAt == o.finishedAt
    && n.attempts == o.attempts && n.requestId == o.requestId && n.retain == o.retain
    && (o.acknowledgedAt.Some? ==> n.acknowledgedAt == o.acknowledgedAt)
  }

  lemma SameOutcomeTransitive(a: Job, b: Job, c: Job)
    requires SameOutcome(a, b) && SameOutcome(b, c)
    ensures SameOutcome(a, c)
  {
  }

  lemma OutcomeFrozen(cfg: Config, sc: Scope, id: nat, o: Job, n: Job)
    requires RowStep(cfg, sc, id, Some(o), Some(n))
    requires Terminal(o)
    ensures Terminal(n) && SameOutcome(o, n)
  {
  }

  predicate Freezes(o: Option<Job>, n: Option<Job>) {
    o.Some? && n.Some? && (Terminal(o.value) ==> Terminal(n.value) && SameOutcome(o.value, n.value))
  }

  // Successive versions of a finished row agree with the first.
  lemma {:induction false} FrozenChain(rows: seq<Option<Job>>, i: nat, k: nat)
    requires i <= k < |rows| && rows[i].Some? && Terminal(rows[i].value)
    requires forall j :: i < j <= k ==> Freezes(rows[j - 1], rows[j])
    ensures Freezes(rows[i], rows[k])
    decreases k
  {
    if i < k {
      FrozenChain(rows, i, k - 1);
      assert Freezes(rows[k - 1], rows[k]);
      SameOutcomeTransitive(rows[i].value, rows[k - 1].value, rows[k].value);
    }
  }

  // Only a start spends an attempt or issues a token; only an accepted completion finishes well.
  lemma OnlyStartsIssue(cfg: Config, sc: Scope, o: Job, n: Job)
    requires RowUpdate(cfg, sc, o, n) && !Starts(cfg, sc, o, n)
    ensures n.attempts == o.attempts
    ensures n.status.Running? ==> o.status.Running? && n.lease == o.lease
  {
    if Downloads(o, n) || Interrupts(o, n) {
    } else if Queues(cfg, sc, o, n) {
    } else if Renews(cfg, sc, o, n) {
    } else if Completes(sc, o, n) {
    } else if FailsForGood(sc, o, n) {
    } else if FailsAndRetries(cfg, sc, o, n) {
    } else if Cancels(sc, o, n) || Exhausts(sc, o, n) {
    } else {
      assert Acknowledges(sc, o, n) || Redispatches(sc, o, n);
    }
  }

  // Apart from a start, an execution that is live after the step was live before it, in the
  // same slot.
  lemma OnlyStartsOccupy(cfg: Config, sc: Scope, o: Job, n: Job, later: Time)
    requires RowUpdate(cfg, sc, o, n) && !Starts(cfg, sc, o, n)
    requires Executing(n, later) && sc.clock <= later
    ensures Executing(o, sc.clock) && n.slot == o.slot
  {
    OnlyStartsIssue(cfg, sc, o, n);
    if Downloads(o, n) || Interrupts(o, n) || Queues(cfg, sc, o, n) {
    } else if Completes(sc, o, n) || FailsForGood(sc, o, n) || FailsAndRetries(cfg, sc, o, n) {
    } else if Cancels(sc, o, n) || Exhausts(sc, o, n) || Acknowledges(sc, o, n) {
    } else {
      assert Renews(cfg, sc, o, n) || Redispatches(sc, o, n);
    }
  }
}
