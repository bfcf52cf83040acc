// What each transaction answers and leaves behind, column by column: an account of the statements
// that does not go through the functions that compute them. before and after are the database at
// the start and at the end of the transaction.
module Outcomes {
  import opened Base
  import opened Rows
  import opened Queue
  import opened Bulk

  // ----- rows -----

  // A running attempt whose lease runs past t.
  predicate Holding(j: Job, t: Time) {
    j.status == Running && j.leaseUntil != None && j.leaseUntil.value > t
  }

  // lease_expires_at IS NULL OR lease_expires_at < t
  predicate RanOut(j: Job, t: Time) {
    j.leaseUntil == None || j.leaseUntil.value < t
  }

  predicate Streaming(j: Job) {
    j.status == Accepted || j.status == Downloading
  }

  predicate Over(j: Job) {
    j.status == Done || j.status == Failed
  }

  // Columns no transaction but the insert writes.
  predicate SameOrigin(o: Job, n: Job) {
    n.createdAt == o.createdAt && n.maxAttempts == o.maxAttempts && n.requestId == o.requestId && n.retain == o.retain
  }

  predicate SameResult(o: Job, n: Job) {
    n.text == o.text && n.segments == o.segments && n.resultPath == o.resultPath
  }

  predicate Unleased(j: Job) {
    j.lease == NoLease && j.leaseUntil == None
  }

  // Nothing but this row changed.
  predicate OneRow(before: Db, after: Db, id: nat) {
    && after.jobs.Keys == before.jobs.Keys && after.slots == before.slots
    && forall j :: j in before.jobs && j != id ==> after.jobs[j] == before.jobs[j]
  }

  // A new message for the job, due from then on, and nothing else in the outbox.
  predicate NewMessage(before: Db, after: Db, id: nat, due: Time) {
    && id in after.jobs && after.jobs[id].dispatch.Some?
    && var m := after.jobs[id].dispatch.value;
    && m == before.nextId && after.nextId == m + 1
    && after.outbox == before.outbox[m := Outgoing(id, due, None)]
  }

  predicate SameMessages(before: Db, after: Db, id: nat) {
    id in before.jobs && id in after.jobs && after.jobs[id].dispatch == before.jobs[id].dispatch
    && after.outbox == before.outbox && after.nextId == before.nextId
  }

  // ----- submission -----

  ghost predicate Created(before: Db, after: Db, maxAttempts: nat, opts: Options, now: Time, id: Option<nat>) {
    && (id == None <==>
         opts.requestId != "" && exists i :: i in before.jobs && before.jobs[i].requestId == opts.requestId)
    && (id == None ==> after == before)
    && (id != None ==>
         && id.value !in before.jobs && after.jobs.Keys == before.jobs.Keys + {id.value}
         && (forall i :: i in before.jobs ==> after.jobs[i] == before.jobs[i])
         && after.slots == before.slots && after.outbox == before.outbox
         && var n := after.jobs[id.value];
         && n.status == Accepted && n.attempts == 0 && n.maxAttempts == maxAttempts
         && n.requestId == opts.requestId && n.retain == opts.retain && n.createdAt == now
         && Unleased(n) && n.dispatch == None && n.delivery == None
         && n.startedAt == None && n.attemptStartedAt == None && n.finishedAt == None && n.acknowledgedAt == None
         && n.text == "" && n.segments == "[]" && n.error == "")
  }

  lemma CreateOutcome(cfg: Config, db: Db, opts: Options, now: Time)
    requires db.nextId !in db.jobs
    requires opts.requestId == "" || forall i :: i in db.jobs ==> db.jobs[i].requestId != opts.requestId
    ensures Created(db, Create(cfg, db, opts, now), cfg.maxAttempts, opts, now, Some(db.nextId))
  {
  }

  predicate Downloaded(before: Db, after: Db, id: nat) {
    if id in before.jobs && Streaming(before.jobs[id]) then
      && OneRow(before, after, id) && after.outbox == before.outbox
      && after.jobs[id].status == Downloading
      && after.jobs[id].(status := before.jobs[id].status) == before.jobs[id]
    else after == before
  }

  lemma DownloadOutcome(db: Db, id: nat)
    ensures Downloaded(db, Download(db, id), id)
  {
  }

  predicate Interrupted(before: Db, after: Db, id: nat) {
    if id in before.jobs && Streaming(before.jobs[id]) then
      && OneRow(before, after, id) && after.outbox == before.outbox
      && after.jobs[id].error == "upload_interrupted"
      && after.jobs[id].(error := before.jobs[id].error) == before.jobs[id]
    else after == before
  }

  lemma InterruptOutcome(db: Db, id: nat)
    ensures Interrupted(db, Interrupt(db, id), id)
  {
  }

  // The job waits, and in RabbitMQ mode so does a message for it, due at once.
  predicate PutInQueue(before: Db, after: Db, id: nat, clock: Time, rabbit: bool, queued: bool) {
    && (queued <==> id in before.jobs && Streaming(before.jobs[id]))
    && (!queued ==> after == before)
    && (queued ==>
         && OneRow(before, after, id)
         && var o, n := before.jobs[id], after.jobs[id];
         && n.status == Queued && n.error == "" && n.progress == 0.0
         && n.attempts == o.attempts && SameOrigin(o, n) && SameResult(o, n)
         && n.lease == o.lease && n.leaseUntil == o.leaseUntil && n.finishedAt == o.finishedAt
         && if rabbit then NewMessage(before, after, id, clock) else SameMessages(before, after, id))
  }

  lemma SubmitOutcome(cfg: Config, db: Db, id: nat, clock: Time)
    ensures PutInQueue(db, Submit(cfg, db, id, clock), id, clock, cfg.rabbit, id in db.jobs && Uploading(db.jobs[id]))
  {
  }

  // ----- fenced writes -----

  predicate Renewed(before: Db, after: Db, seconds: nat, id: nat, lease: Lease, progress: real, clock: Time,
                    accepted: bool) {
    && (accepted <==> id in before.jobs && before.jobs[id].lease == lease && Holding(before.jobs[id], clock))
    && (!accepted ==> after == before)
    && (accepted ==>
         && OneRow(before, after, id) && after.outbox == before.outbox
         && var o, n := before.jobs[id], after.jobs[id];
         && n.leaseUntil == Some(clock + seconds * SECOND) && n.progress == progress
         && n.(leaseUntil := o.leaseUntil, progress := o.progress) == o)
  }

  lemma RenewOutcome(cfg: Config, db: Db, id: nat, lease: Lease, progress: real, clock: Time)
    ensures Renewed(db, Heartbeat(cfg, db, id, lease, progress, clock), cfg.leaseSeconds, id, lease, progress, clock,
                    RenewAccepted(db, id, lease, clock))
  {
  }

  // The delivered result is what is stored.
  predicate Completed(before: Db, after: Db, id: nat, lease: Lease, now: Time,
                      text: string, segments: string, path: string, accepted: bool) {
    && (accepted <==> id in before.jobs && before.jobs[id].lease == lease && Holding(before.jobs[id], now))
    && (!accepted ==> after == before)
    && (accepted ==>
         && OneRow(before, after, id) && SameMessages(before, after, id)
         && var o, n := before.jobs[id], after.jobs[id];
         && n.status == Done && n.text == text && n.segments == segments && n.resultPath == path
         && n.progress == 100.0 && n.error == "" && n.finishedAt == Some(now) && Unleased(n)
         && n.attempts == o.attempts && n.slot == o.slot && SameOrigin(o, n) && n.acknowledgedAt == o.acknowledgedAt)
  }

  lemma CompleteOutcome(db: Db, id: nat, lease: Lease, now: Time, text: string, segments: string, path: string)
    ensures Completed(db, Complete(db, id, lease, now, text, segments, path), id, lease, now, text, segments, path,
                      CompleteAccepted(db, id, lease, now))
  {
  }

  predicate Stored(db: Db, id: nat, text: string, segments: string, path: string) {
    id in db.jobs && db.jobs[id].status == Done
    && db.jobs[id].text == text && db.jobs[id].segments == segments && db.jobs[id].resultPath == path
  }

  // A retryable failure with attempts left is queued again, with a message that waits 2^min(a, 8)
  // seconds; every other one is final.
  predicate FailedOnce(before: Db, after: Db, rabbit: bool, id: nat, lease: Lease, now: Time, clock: Time,
                       error: string, retryable: bool, accepted: bool) {
    && (accepted <==>
         id in before.jobs && before.jobs[id].lease == lease
         && (Holding(before.jobs[id], now) || (lease == NoLease && Streaming(before.jobs[id]))))
    && (!accepted ==> after == before)
    && (accepted ==>
         && OneRow(before, after, id)
         && var o, n := before.jobs[id], after.jobs[id];
         && n.error == error && n.progress == 0.0 && Unleased(n)
         && n.attempts == o.attempts && SameOrigin(o, n) && SameResult(o, n)
         && if retryable && o.attempts < o.maxAttempts then
              n.status == Queued && n.finishedAt == None
              && if rabbit then NewMessage(before, after, id, clock + Pow2(Min(o.attempts, 8)) * SECOND)
                 else SameMessages(before, after, id)
            else n.status == Failed && n.finishedAt == Some(now) && SameMessages(before, after, id))
  }

  lemma SmallPowers(n: nat)
    requires n <= 8
    ensures Pow2(n) <= 256
  {
    assert Pow2(0) == 1 && Pow2(1) == 2 && Pow2(2) == 4 && Pow2(3) == 8 && Pow2(4) == 16;
    assert Pow2(5) == 32 && Pow2(6) == 64 && Pow2(7) == 128 && Pow2(8) == 256;
    assert n == 0 || n == 1 || n == 2 || n == 3 || n == 4 || n == 5 || n == 6 || n == 7 || n == 8;
  }

  // 300 never limits the delay: it is 2, 4, ..., 256 seconds.
  lemma DelayIs(attempts: nat)
    ensures RetryDelay(attempts) == Pow2(Min(attempts, 8))
  {
    SmallPowers(Min(attempts, 8));
  }

  lemma FinalFailure(cfg: Config, db: Db, id: nat, lease: Lease, now: Time, clock: Time, error: string, retryable: bool)
    requires !(FailAccepted(db, id, lease, now) && retryable && db.jobs[id].attempts < db.jobs[id].maxAttempts)
    ensures FailedOnce(db, Fail(cfg, db, id, lease, now, clock, error, retryable), cfg.rabbit, id, lease, now, clock,
                       error, retryable, FailAccepted(db, id, lease, now))
  {
  }

  lemma RetriedFailure(cfg: Config, db: Db, id: nat, lease: Lease, now: Time, clock: Time, error: string)
    requires FailAccepted(db, id, lease, now) && db.jobs[id].attempts < db.jobs[id].maxAttempts
    ensures FailedOnce(db, Fail(cfg, db, id, lease, now, clock, error, true), cfg.rabbit, id, lease, now, clock,
                       error, true, true)
  {
    var o := db.jobs[id];
    DelayIs(o.attempts);
    var d := Write(db, id, FailRow(o, now, error, true));
    assert d.jobs[id].status == Queued && d.jobs[id].attempts == o.attempts;
    var after := Fail(cfg, db, id, lease, now, clock, error, true);
    assert after == if cfg.rabbit then Enqueue(d, id, clock, RetryDelay(o.attempts)) else d;
  }

  lemma FailOutcome(cfg: Config, db: Db, id: nat, lease: Lease, now: Time, clock: Time, error: string, retryable: bool)
    ensures FailedOnce(db, Fail(cfg, db, id, lease, now, clock, error, retryable), cfg.rabbit, id, lease, now, clock,
                       error, retryable, FailAccepted(db, id, lease, now))
  {
    if FailAccepted(db, id, lease, now) && retryable && db.jobs[id].attempts < db.jobs[id].maxAttempts {
      RetriedFailure(cfg, db, id, lease, now, clock, error);
    } else {
      FinalFailure(cfg, db, id, lease, now, clock, error, retryable);
    }
  }

  predicate Cancelled(before: Db, after: Db, id: nat, now: Time, cancelled: bool) {
    && (cancelled <==> id in before.jobs && !Over(before.jobs[id]))
    && (!cancelled ==> after == before)
    && (cancelled ==>
         && OneRow(before, after, id) && SameMessages(before, after, id)
         && var o, n := before.jobs[id], after.jobs[id];
         && n.status == Failed && n.error == "cancelled" && n.progress == 0.0
         && n.finishedAt == Some(now) && Unleased(n)
         && n.attempts == o.attempts && SameOrigin(o, n) && SameResult(o, n))
  }

  lemma CancelOutcome(db: Db, id: nat, now: Time)
    ensures Cancelled(db, Cancel(db, id, now), id, now, id in db.jobs && !Terminal(db.jobs[id]))
  {
  }

  // The first Ack is the one that counts.
  predicate Acknowledged(before: Db, after: Db, id: nat, now: Time, acknowledged: bool) {
    && (acknowledged <==> id in before.jobs && Over(before.jobs[id]))
    && (!acknowledged ==> after == before)
    && (acknowledged ==>
         && OneRow(before, after, id) && after.outbox == before.outbox
         && var o, n := before.jobs[id], after.jobs[id];
         && n.acknowledgedAt == (if o.acknowledgedAt == None then Some(now) else o.acknowledgedAt)
         && n.(acknowledgedAt := o.acknowledgedAt) == o)
  }

  lemma AckOutcome(db: Db, id: nat, now: Time)
    ensures Acknowledged(db, Acknowledge(db, id, now), id, now, id in db.jobs && Terminal(db.jobs[id]))
  {
  }

  // ----- starting an attempt -----

  // What a start grants: a token of its own, for the full lease time from the statement's clock.
  predicate Granted(o: Job, n: Job, lease: Lease, slot: Slot, now: Time, until: Time) {
    && n.status == Running && n.attempts == o.attempts + 1
    && n.lease == lease && n.leaseUntil == Some(until) && n.slot == slot
    && n.attemptStartedAt == Some(now) && n.startedAt == (if o.startedAt == None then Some(now) else o.startedAt)
    && n.error == "" && n.dispatch == o.dispatch && n.finishedAt == o.finishedAt
    && SameOrigin(o, n) && SameResult(o, n) && n.acknowledgedAt == o.acknowledgedAt
  }

  function LiveRows(db: Db, worker: string, t: Time): set<nat> {
    set id | id in db.jobs && Holding(db.jobs[id], t) && db.jobs[id].slot.worker == worker
  }

  predicate SlotAtWork(db: Db, slot: Slot, t: Time) {
    exists id :: id in db.jobs && Holding(db.jobs[id], t) && db.jobs[id].slot == slot
  }

  predicate MayStart(cfg: Config, db: Db, slot: Slot, t: Time) {
    && slot.worker in cfg.policies
    && slot in db.slots && db.slots[slot].readyUntil > t && db.slots[slot].consumerUntil > t
    && !SlotAtWork(db, slot, t)
    && |LiveRows(db, slot.worker, t)| < cfg.policies[slot.worker].capacity
  }

  datatype Answer = Dropped | Postponed | Given(lease: Lease)

  // The message is for nobody any more.
  predicate Outdated(before: Db, r: BeginRequest) {
    r.job !in before.jobs || before.jobs[r.job].dispatch != Some(r.message)
    || !(before.jobs[r.job].status == Queued || before.jobs[r.job].status == Running)
  }

  predicate Exhausts(before: Db, after: Db, id: nat, now: Time) {
    && OneRow(before, after, id) && SameMessages(before, after, id)
    && id in before.jobs
    && var o, n := before.jobs[id], after.jobs[id];
    && n.status == Failed && n.error == "attempts_exhausted" && n.finishedAt == Some(now) && Unleased(n)
    && n.attempts == o.attempts && SameOrigin(o, n) && SameResult(o, n)
  }

  predicate BeginAnswered(cfg: Config, before: Db, after: Db, r: BeginRequest, now: Time,
                          lookAt: Time, capacityAt: Time, startAt: Time, answer: Answer) {
    if Outdated(before, r) then answer == Dropped && after == before
    else
      var o := before.jobs[r.job];
      if Holding(o, lookAt) then
        after == before
        && answer == if o.delivery == Some(r.delivery) && o.slot == r.slot then Given(o.lease) else Postponed
      else if o.attempts >= o.maxAttempts then answer == Dropped && Exhausts(before, after, r.job, now)
      else if MayStart(cfg, before, r.slot, capacityAt) then
        answer == Given(Lease(r.slot.worker, before.nextId)) && Begun(cfg, before, after, r, now, startAt)
      else answer == Postponed && after == before
  }

  lemma ExhaustOutcome(db: Db, id: nat, now: Time)
    requires id in db.jobs
    ensures Exhausts(db, ExhaustJob(db, id, now), id, now)
  {
  }

  predicate Begun(cfg: Config, before: Db, after: Db, r: BeginRequest, now: Time, startAt: Time) {
    && OneRow(before, after, r.job) && after.outbox == before.outbox && after.nextId == before.nextId + 1
    && r.job in before.jobs
    && Granted(before.jobs[r.job], after.jobs[r.job], Lease(r.slot.worker, before.nextId), r.slot, now,
               startAt + cfg.leaseSeconds * SECOND)
    && after.jobs[r.job].delivery == Some(r.delivery) && after.jobs[r.job].progress == 0.0
  }

  lemma StartOutcome(cfg: Config, db: Db, r: BeginRequest, now: Time, startAt: Time)
    requires r.job in db.jobs
    ensures Begun(cfg, db, StartJob(cfg, db, r, now, startAt), r, now, startAt)
  {
  }

  lemma RoomIff(cfg: Config, db: Db, slot: Slot, t: Time)
    ensures HasRoom(cfg, db, slot, t) <==> MayStart(cfg, db, slot, t)
  {
    assert Active(db, slot.worker, t) == LiveRows(db, slot.worker, t);
  }

  // ----- claiming -----

  // After reaping and asking: exhausted attempts that ran out are over, and a ready slot asks for
  // work until its demand TTL has passed.
  predicate Asked(cfg: Config, before: Db, asked: Db, slot: Slot, now: Time, askAt: Time) {
    && asked.jobs.Keys == before.jobs.Keys && asked.outbox == before.outbox && asked.nextId == before.nextId
    && (forall id :: id in before.jobs ==>
         var o, n := before.jobs[id], asked.jobs[id];
         if o.status == Running && o.attempts >= o.maxAttempts && RanOut(o, now) then
           n.status == Failed && n.error == "attempts_exhausted" && n.finishedAt == Some(now) && Unleased(n)
           && n.attempts == o.attempts && SameOrigin(o, n) && SameResult(o, n) && n.dispatch == o.dispatch
         else n == o)
    && asked.slots.Keys == before.slots.Keys
    && (forall s :: s in before.slots && s != slot ==> asked.slots[s] == before.slots[s])
    && (slot in before.slots ==>
         var o, n := before.slots[slot], asked.slots[slot];
         && n.readyUntil == o.readyUntil && n.consumerUntil == o.consumerUntil
         && n.demandUntil == if o.readyUntil > askAt then askAt + cfg.demandTtl * SECOND else o.demandUntil)
  }

  lemma AskOutcome(cfg: Config, db: Db, slot: Slot, now: Time, askAt: Time)
    ensures Asked(cfg, db, RequestWork(cfg, Reap(db, now), slot, askAt), slot, now, askAt)
  {
    ReapRows(db, now);
  }

  // A slot that is ready, asks, is idle, has no lease of an old process in its pool, and whose pool has
  // room.
  predicate Waits(cfg: Config, db: Db, slot: Slot, t: Time) {
    && slot in db.slots && slot.worker in cfg.policies
    && db.slots[slot].readyUntil > t && db.slots[slot].demandUntil > t
    && !SlotAtWork(db, slot, t) && !SlotAtWork(db, Slot(slot.worker, ""), t)
    && |LiveRows(db, slot.worker, t)| < cfg.policies[slot.worker].capacity
  }

  // No slot of a better pool waits.
  predicate FirstInLine(cfg: Config, db: Db, slot: Slot, t: Time) {
    Waits(cfg, db, slot, t)
    && forall s :: s in db.slots && Waits(cfg, db, s, t) ==>
      cfg.policies[slot.worker].priority <= cfg.policies[s.worker].priority
  }

  predicate Available(j: Job, t: Time) {
    j.attempts < j.maxAttempts && (j.status == Queued || (j.status == Running && RanOut(j, t)))
  }

  // The oldest available row, the smaller key first among equals.
  predicate Oldest(db: Db, id: nat, locked: set<nat>, t: Time) {
    && id in db.jobs && id !in locked && Available(db.jobs[id], t)
    && forall o :: o in db.jobs && o !in locked && Available(db.jobs[o], t) ==>
      db.jobs[id].createdAt < db.jobs[o].createdAt || (db.jobs[id].createdAt == db.jobs[o].createdAt && id <= o)
  }

  predicate ClaimAnswered(cfg: Config, asked: Db, after: Db, slot: Slot, now: Time, selectAt: Time, takeAt: Time,
                          locked: set<nat>, claimed: Option<(nat, Lease)>) {
    && (claimed == None <==>
         !FirstInLine(cfg, asked, slot, selectAt)
         || forall id :: id in asked.jobs && id !in locked ==> !Available(asked.jobs[id], takeAt))
    && (claimed == None ==> after == asked)
    && (claimed != None ==>
         var (id, lease) := claimed.value;
         && FirstInLine(cfg, asked, slot, selectAt) && Oldest(asked, id, locked, takeAt)
         && lease == Lease(slot.worker, asked.nextId) && Taken(cfg, asked, after, id, slot, now, takeAt))
  }

  predicate Taken(cfg: Config, asked: Db, after: Db, id: nat, slot: Slot, now: Time, takeAt: Time) {
    && OneRow(asked, after, id) && after.outbox == asked.outbox && after.nextId == asked.nextId + 1
    && id in asked.jobs
    && Granted(asked.jobs[id], after.jobs[id], Lease(slot.worker, asked.nextId), slot, now,
               takeAt + cfg.leaseSeconds * SECOND)
  }

  lemma TakenOutcome(cfg: Config, db: Db, id: nat, slot: Slot, now: Time, takeAt: Time)
    requires id in db.jobs
    ensures Taken(cfg, db, TakeJob(cfg, db, id, slot, now, takeAt), id, slot, now, takeAt)
  {
  }

  lemma WaitsIff(cfg: Config, db: Db, slot: Slot, t: Time)
    ensures Eligible(cfg, db, slot, t) <==> Waits(cfg, db, slot, t)
  {
    assert Active(db, slot.worker, t) == LiveRows(db, slot.worker, t);
    assert SlotBusy(db, slot, t) <==> SlotAtWork(db, slot, t);
    assert SlotBusy(db, Slot(slot.worker, ""), t) <==> SlotAtWork(db, Slot(slot.worker, ""), t);
  }

  lemma FirstIff(cfg: Config, db: Db, slot: Slot, t: Time)
    ensures Selected(cfg, db, slot, t) <==> FirstInLine(cfg, db, slot, t)
  {
    WaitsIff(cfg, db, slot, t);
    forall s | s in db.slots
      ensures Eligible(cfg, db, s, t) <==> Waits(cfg, db, s, t)
    {
      WaitsIff(cfg, db, s, t);
    }
  }

  lemma OldestIff(db: Db, id: nat, locked: set<nat>, t: Time)
    ensures IsCandidate(db, id, locked, t) <==> Oldest(db, id, locked, t)
  {
    assert forall o :: o in db.jobs ==> (Claimable(db.jobs[o], t) <==> Available(db.jobs[o], t));
  }

  // A claim is served: whenever a ready idle slot of a pool with room asks, no better pool has a slot
  // that waits, and a job is available that nobody has locked.
  lemma ClaimServed(cfg: Config, before: Db, asked: Db, after: Db, slot: Slot, now: Time, askAt: Time, selectAt: Time,
                    takeAt: Time, locked: set<nat>, claimed: Option<(nat, Lease)>, id: nat)
    requires now <= askAt <= selectAt < askAt + cfg.demandTtl * SECOND
    requires Asked(cfg, before, asked, slot, now, askAt)
    requires ClaimAnswered(cfg, asked, after, slot, now, selectAt, takeAt, locked, claimed)
    requires slot in before.slots && slot.worker in cfg.policies && before.slots[slot].readyUntil > selectAt
    requires !SlotAtWork(before, slot, selectAt) && !SlotAtWork(before, Slot(slot.worker, ""), selectAt)
    requires |LiveRows(before, slot.worker, selectAt)| < cfg.policies[slot.worker].capacity
    requires forall s :: s in before.slots && s != slot && Waits(cfg, before, s, selectAt) ==>
      cfg.policies[slot.worker].priority <= cfg.policies[s.worker].priority
    requires id in before.jobs && id !in locked && Available(before.jobs[id], takeAt)
    ensures claimed != None
  {
    SameLive(cfg, before, asked, slot, now, askAt, selectAt);
    assert Waits(cfg, asked, slot, selectAt);
    assert Available(asked.jobs[id], takeAt);
  }

  // Reaping takes no live attempt.
  lemma SameLive(cfg: Config, before: Db, asked: Db, slot: Slot, now: Time, askAt: Time, t: Time)
    requires Asked(cfg, before, asked, slot, now, askAt) && now <= t
    ensures forall s :: SlotAtWork(asked, s, t) <==> SlotAtWork(before, s, t)
    ensures forall w :: LiveRows(asked, w, t) == LiveRows(before, w, t)
  {
    assert forall id :: id in before.jobs ==> (Holding(asked.jobs[id], t) <==> Holding(before.jobs[id], t));
    assert forall id :: id in before.jobs && Holding(before.jobs[id], t) ==> asked.jobs[id] == before.jobs[id];
    forall s
      ensures SlotAtWork(asked, s, t) <==> SlotAtWork(before, s, t)
    {
    }
  }

  // ----- slots -----

  // The slots a pool has given away: those with a running admission and those at work.
  function GivenAway(db: Db, worker: string, t: Time): set<string> {
    (set s | s in db.slots && s.worker == worker && db.slots[s].readyUntil > t && db.slots[s].consumerUntil > t ::
       s.instance)
    + (set id | id in LiveRows(db, worker, t) :: db.jobs[id].slot.instance)
  }

  predicate Registered(cfg: Config, before: Db, after: Db, slot: Slot, clock: Time, priority: Option<nat>) {
    && (priority != None <==>
         && cfg.rabbit && slot.worker in cfg.policies && cfg.policies[slot.worker].capacity > 0
         && slot in before.slots && before.slots[slot].readyUntil > clock
         && (slot.instance in GivenAway(before, slot.worker, clock)
             || |GivenAway(before, slot.worker, clock)| < cfg.policies[slot.worker].capacity))
    && (priority == None ==> after == before)
    && (priority != None ==>
         && priority.value + cfg.policies[slot.worker].priority == 10000
         && after.jobs == before.jobs && after.outbox == before.outbox && slot in before.slots
         && after.slots.Keys == before.slots.Keys
         && (forall s :: s in before.slots && s != slot ==> after.slots[s] == before.slots[s])
         && var o, n := before.slots[slot], after.slots[slot];
         && n.readyUntil == o.readyUntil && n.demandUntil == o.demandUntil && n.consumerUntil == o.readyUntil)
  }

  lemma GivenAwayIs(db: Db, worker: string, t: Time)
    ensures GivenAway(db, worker, t) == Occupied(db, worker, t)
  {
    assert Active(db, worker, t) == LiveRows(db, worker, t);
  }

  lemma RegisterOutcome(cfg: Config, db: Db, slot: Slot, clock: Time)
    requires ValidConfig(cfg)
    ensures var admits := cfg.rabbit && Admits(cfg, db, slot, clock);
            Registered(cfg, db, if admits then Register(cfg, db, slot, clock) else db, slot, clock,
                       if admits then Some(10000 - cfg.policies[slot.worker].priority) else None)
    ensures Admits(cfg, db, slot, clock) ==> Admitted(Register(cfg, db, slot, clock), slot, clock)
  {
    GivenAwayIs(db, slot.worker, clock);
  }

  // A report of an unknown slot, or of one that was silent for more than a day, starts a row; any
  // other moves the readiness, and the admission with it while it runs, but never the demand.
  ghost predicate SlotReported(cfg: Config, before: Db, after: Db, slot: Slot, ready: bool, now: Time) {
    && after.jobs == before.jobs && after.outbox == before.outbox
    && (forall s :: s in after.slots <==> s == slot || (s in before.slots && before.slots[s].readyUntil >= now - DAY))
    && (forall s :: s in after.slots && s != slot ==> after.slots[s] == before.slots[s])
    && var n := after.slots[slot];
    && n.readyUntil == (if ready then now + cfg.availabilityTtl * SECOND else now)
    && if slot in before.slots && before.slots[slot].readyUntil >= now - DAY then
         var o := before.slots[slot];
         n.demandUntil == o.demandUntil
         && n.consumerUntil == if o.consumerUntil > now then n.readyUntil else o.consumerUntil
       else n.consumerUntil == -1 && n.demandUntil == if ready then now + cfg.demandTtl * SECOND else now
  }

  lemma ReportOutcome(cfg: Config, db: Db, slot: Slot, ready: bool, now: Time)
    ensures SlotReported(cfg, db, Report(cfg, db, slot, ready, now), slot, ready, now)
  {
  }

  // ----- deletion and publication -----

  // Past its retention: counted from the end, or from the first Ack if the client asked to keep it.
  predicate Outlived(j: Job, now: Time, ttl: nat) {
    j.finishedAt != None
    && if j.retain then j.acknowledgedAt != None && j.acknowledgedAt.value + ttl * SECOND < now
       else j.finishedAt.value + ttl * SECOND < now
  }

  // Rows are deleted exactly when they were over and past retention, with their messages; running rows
  // without attempts left whose lease ran out are over; everything else stays as it was. A row reaped
  // now is never past its retention yet.
  ghost predicate Cleaned(before: Db, after: Db, now: Time, ttl: nat, deleted: set<nat>) {
    && deleted == (set id | id in before.jobs && !Doomed(before.jobs[id], now) && Outlived(before.jobs[id], now, ttl))
    && after.jobs.Keys == before.jobs.Keys - deleted && after.slots == before.slots
    && (forall id :: id in after.jobs ==>
         if Doomed(before.jobs[id], now) then
           after.jobs[id].status == Failed && after.jobs[id].error == "attempts_exhausted"
           && after.jobs[id].finishedAt == Some(now) && Unleased(after.jobs[id])
         else after.jobs[id] == before.jobs[id])
    && (forall m :: m in after.outbox <==> m in before.outbox && before.outbox[m].job !in deleted)
    && (forall m :: m in after.outbox ==> after.outbox[m] == before.outbox[m])
  }

  predicate Doomed(j: Job, now: Time) {
    j.status == Running && j.attempts >= j.maxAttempts && RanOut(j, now)
  }

  lemma CleanupOutcome(db: Db, now: Time, ttl: nat)
    requires forall id :: id in db.jobs && db.jobs[id].status.Running? ==> db.jobs[id].acknowledgedAt.None?
    ensures Cleaned(db, Cleanup(db, now, ttl), now, ttl, db.jobs.Keys - Cleanup(db, now, ttl).jobs.Keys)
  {
    ReapRows(db, now);
    var d := Reap(db, now);
    assert forall id :: id in db.jobs ==> (MayReap(db.jobs[id], now) <==> Doomed(db.jobs[id], now));
    assert forall id :: id in db.jobs ==> (id in Deletable(d, now, ttl) <==>
      !Doomed(db.jobs[id], now) && Outlived(db.jobs[id], now, ttl));
  }

  // A message that waits for its publication and whose time has come.
  predicate ReadyToGo(o: Outgoing, clock: Time) {
    o.publishedAt == None && o.availableAt <= clock
  }

  predicate Sent(before: Db, after: Db, locked: set<nat>, publish: bool, now: Time, clock: Time, sent: Option<nat>) {
    && after.jobs == before.jobs && after.slots == before.slots && after.outbox.Keys == before.outbox.Keys
    && (sent == None <==> forall m :: m in before.outbox && m !in locked ==> !ReadyToGo(before.outbox[m], clock))
    && (sent == None || !publish ==> after == before)
    && (sent != None ==>
         var m := sent.value;
         && m in before.outbox && m !in locked && ReadyToGo(before.outbox[m], clock)
         && (forall o :: o in before.outbox && o !in locked && ReadyToGo(before.outbox[o], clock) ==>
              before.outbox[m].availableAt < before.outbox[o].availableAt
              || (before.outbox[m].availableAt == before.outbox[o].availableAt && m <= o))
         && (forall o :: o in before.outbox && o != m ==> after.outbox[o] == before.outbox[o])
         && (publish ==>
              after.outbox[m].publishedAt == Some(now)
              && after.outbox[m].job == before.outbox[m].job
              && after.outbox[m].availableAt == before.outbox[m].availableAt))
  }

  lemma NextIff(db: Db, m: nat, locked: set<nat>, clock: Time)
    ensures IsNext(db, m, locked, clock) <==>
            && m in db.outbox && m !in locked && ReadyToGo(db.outbox[m], clock)
            && forall o :: o in db.outbox && o !in locked && ReadyToGo(db.outbox[o], clock) ==>
              db.outbox[m].availableAt < db.outbox[o].availableAt
              || (db.outbox[m].availableAt == db.outbox[o].availableAt && m <= o)
  {
    assert forall o :: o in db.outbox ==> (Due(db, o, locked, clock) <==>
      o !in locked && ReadyToGo(db.outbox[o], clock));
  }
}
