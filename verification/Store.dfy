// JobStore as the program runs it: tables updated in place, one statement after the other.
// Each method is the transaction of the same name; now is its start and every further time
// argument the reading of clock_timestamp() in one of its statements.
module Store {
  import opened Base
  import opened Rows
  import opened Observations
  import opened Queue
  import opened Lifecycle
  import opened Bulk
  import opened Coordinator
  import Outcomes

  datatype BeginResult = Discarded | Refused | Started(lease: Lease)

  function AnswerOf(r: BeginResult): Outcomes.Answer {
    match r
    case Discarded => Outcomes.Dropped
    case Refused => Outcomes.Postponed
    case Started(lease) => Outcomes.Given(lease)
  }

  function At(db: Db, clock: Time): Coord {
    START.(db := db, clock := clock)
  }

  ghost predicate Consistent(cfg: Config, db: Db, clock: Time) {
    ValidConfig(cfg) && Inv(cfg, At(db, clock))
  }

  lemma ConsistentStep(cfg: Config, db: Db, clock: Time, e: Step)
    requires Consistent(cfg, db, clock) && Enabled(cfg, At(db, clock), e)
    ensures Inv(cfg, Apply(cfg, At(db, clock), e))
  {
    InvKept(cfg, At(db, clock), e);
  }

  lemma ConsistentLater(cfg: Config, db: Db, clock: Time, later: Time)
    requires Consistent(cfg, db, clock) && clock <= later
    ensures Consistent(cfg, db, later)
  {
    InvKept(cfg, At(db, clock), Tick(later));
  }

  // The invariant does not look at the lock holder or the history when the lock is free.
  lemma ConsistentEnd(cfg: Config, s: Coord)
    requires ValidConfig(cfg) && Inv(cfg, s)
    ensures Consistent(cfg, s.db, s.clock)
  {
  }

  // What begin_attempt answers and leaves behind.
  ghost predicate BeginOutcome(cfg: Config, db: Db, r: BeginRequest, now: Time, lookAt: Time, capacityAt: Time,
                               startAt: Time, after: Db, result: BeginResult) {
    match Decide(cfg, db, r, lookAt)
    case Discard => result == Discarded && after == db
    case Resume(lease) => result == Started(lease) && after == db
    case Busy => result == Refused && after == db
    case Exhaust => result == Discarded && r.job in db.jobs && after == ExhaustJob(db, r.job, now)
    case Proceed =>
      r.job in db.jobs
      && if HasRoom(cfg, db, r.slot, capacityAt)
         then result == Started(FreshLease(db, r.slot)) && after == StartJob(cfg, db, r, now, startAt)
         else result == Refused && after == db
  }

  // What claim_next_job answers and leaves behind: the reaping and the request stay even when
  // no job is claimed.
  ghost predicate ClaimOutcome(cfg: Config, db: Db, slot: Slot, now: Time, askAt: Time, selectAt: Time,
                               takeAt: Time, locked: set<nat>, after: Db, claimed: Option<(nat, Lease)>) {
    TakeOutcome(cfg, RequestWork(cfg, Reap(db, now), slot, askAt), slot, now, selectAt, takeAt, locked, after, claimed)
  }

  class JobStore {
    const cfg: Config
    var jobs: map<nat, Job>
    var slots: map<Slot, Availability>
    var outbox: map<nat, Outgoing>
    var counters: Counters
    var nextId: nat

    ghost function View(): Db
      reads this
    {
      Db(jobs, slots, outbox, counters, nextId)
    }

    ghost predicate Valid(clock: Time)
      reads this
    {
      Consistent(cfg, View(), clock)
    }

    constructor (cfg: Config)
      requires ValidConfig(cfg)
      ensures this.cfg == cfg && View() == EMPTY && Valid(0)
    {
      this.cfg := cfg;
      jobs, slots, outbox, counters, nextId := map[], map[], map[], map[], 0;
    }

    // ----- the trigger -----

    // transcriber_observe
    method Observe(worker: string, event: Event)
      modifies this`counters
      ensures counters == Bump(old(counters), KeyOf(worker, event))
    {
      var key := Key(if worker == "" then "ingress" else worker, event);
      if key in counters {
        counters := counters[key := counters[key] + 1];
      } else {
        counters := counters[key := 1];
      }
    }

    // transcriber_observe_job on an UPDATE, branch by branch
    method ObserveJob(o: Job, n: Job)
      modifies this`counters
      ensures counters == Record(old(counters), Events(o, n))
    {
      var previous, next := LeaseWorker(o.lease), LeaseWorker(n.lease);
      ghost var c0 := counters;
      if n.attempts > o.attempts {
        Observe(next, Attempts);
        if n.attempts > 1 {
          Observe(next, Retries);
        } else {
          Observe(next, QueueWait);
        }
      }
      ghost var c1 := counters;
      if n.attempts > o.attempts {
        RecordTwo(c0, AttemptEvents(o, n)[0], AttemptEvents(o, n)[1]);
      }
      assert c1 == Record(c0, AttemptEvents(o, n));
      if o.status.Running?
         && (n.attempts > o.attempts || (n.status.Failed? && n.error == "attempts_exhausted")) {
        Observe(previous, LeaseExpirations);
      }
      ghost var c2 := counters;
      assert c2 == Record(c1, ExpiryEvents(o, n));
      if o.status.Running? && (n.status.Queued? || n.status.Failed?) && n.error != "cancelled" {
        Observe(previous, AttemptFailures);
      }
      ghost var c3 := counters;
      assert c3 == Record(c2, FailureEvents(o, n));
      if n.status.Done? && !o.status.Done? {
        RecordOutcome(c3, o, n);
        Observe(previous, Completed);
        if o.attemptStartedAt.Some? {
          Observe(previous, Processing);
        }
        Observe(previous, Turnaround);
      } else if n.status.Failed? && !Terminal(o) {
        Observe(previous, if n.error == "cancelled" then Cancelled else Failures);
      }
      assert counters == Record(c3, OutcomeEvents(o, n));
      RecordAppend(c0, AttemptEvents(o, n), ExpiryEvents(o, n));
      RecordAppend(c0, AttemptEvents(o, n) + ExpiryEvents(o, n), FailureEvents(o, n));
      RecordAppend(c0, AttemptEvents(o, n) + ExpiryEvents(o, n) + FailureEvents(o, n), OutcomeEvents(o, n));
    }

    static lemma {:induction false} RecordAppend(c: Counters, a: seq<Key>, b: seq<Key>)
      ensures Record(c, a + b) == Record(Record(c, a), b)
      decreases |a|
    {
      if a == [] {
        assert a + b == b;
      } else {
        assert (a + b)[1..] == a[1..] + b;
        RecordAppend(Bump(c, a[0]), a[1..], b);
      }
    }

    static lemma RecordTwo(c: Counters, a: Key, b: Key)
      ensures Record(c, [a, b]) == Bump(Bump(c, a), b)
    {
      assert [a, b] == [a] + [b];
      RecordAppend(c, [a], [b]);
    }

    static lemma RecordOutcome(c: Counters, o: Job, n: Job)
      requires n.status.Done? && !o.status.Done?
      ensures var w := LeaseWorker(o.lease);
              var timed := if o.attemptStartedAt.Some?
                           then Bump(Bump(c, KeyOf(w, Completed)), KeyOf(w, Processing))
                           else Bump(c, KeyOf(w, Completed));
              Record(c, OutcomeEvents(o, n)) == Bump(timed, KeyOf(w, Turnaround))
    {
      var w := LeaseWorker(o.lease);
      var mid := if o.attemptStartedAt.Some? then [KeyOf(w, Processing)] else [];
      RecordAppend(c, [KeyOf(w, Completed)], mid);
      RecordAppend(c, [KeyOf(w, Completed)] + mid, [KeyOf(w, Turnaround)]);
    }

    // UPDATE ... SET status = ..., attempts = ... WHERE job_id = id
    method Update(id: nat, n: Job)
      requires id in jobs
      modifies this`jobs, this`counters
      ensures View() == Write(old(View()), id, n)
    {
      ObserveJob(jobs[id], n);
      jobs := jobs[id := n];
    }

    // ----- submission -----

    method CreateJob(opts: Options, now: Time, ghost clock: Time) returns (id: Option<nat>)
      requires Valid(clock) && now <= clock
      modifies this
      ensures Valid(clock)
      ensures id.None? <==>
                opts.requestId != "" && exists i :: i in old(jobs) && old(jobs)[i].requestId == opts.requestId
      ensures View() == if id.Some? then Create(cfg, old(View()), opts, now) else old(View())
      ensures Outcomes.Created(old(View()), View(), cfg.maxAttempts, opts, now, id)
    {
      // The partial unique index on request_id refuses a second row.
      if opts.requestId != "" && exists i :: i in jobs && jobs[i].requestId == opts.requestId {
        return None;
      }
      CreateKeeps(cfg, View(), clock, opts, now);
      id := Some(nextId);
      jobs := jobs[nextId := NewJob(cfg.maxAttempts, opts, now)];
      Observe("ingress", Submitted);
      nextId := nextId + 1;
    }

    method Dispatch(id: nat, clock: Time, delay: nat)
      requires id in jobs
      modifies this
      ensures View() == Enqueue(old(View()), id, clock, delay)
      ensures Outcomes.OneRow(old(View()), View(), id)
      ensures Outcomes.NewMessage(old(View()), View(), id, clock + delay * SECOND)
    {
      var message := nextId;
      nextId := nextId + 1;
      jobs := jobs[id := jobs[id].(dispatch := Some(message))];
      outbox := outbox[message := Outgoing(id, clock + delay * SECOND, None)];
    }

    method MarkDownloading(id: nat, ghost clock: Time)
      requires Valid(clock)
      modifies this
      ensures Valid(clock) && View() == Download(old(View()), id)
      ensures Outcomes.Downloaded(old(View()), View(), id)
    {
      Outcomes.DownloadOutcome(View(), id);
      ConsistentStep(cfg, View(), clock, Coordinator.MarkDownloading(id));
      if id in jobs && Uploading(jobs[id]) {
        Update(id, jobs[id].(status := Downloading));
      }
    }

    method MarkUploadInterrupted(id: nat, ghost clock: Time)
      requires Valid(clock)
      modifies this
      ensures Valid(clock) && View() == Interrupt(old(View()), id)
      ensures Outcomes.Interrupted(old(View()), View(), id)
    {
      Outcomes.InterruptOutcome(View(), id);
      ConsistentStep(cfg, View(), clock, MarkInterrupted(id));
      if id in jobs && Uploading(jobs[id]) {
        jobs := jobs[id := jobs[id].(error := "upload_interrupted")];
      }
    }

    // The queued transition and its outbox record are one transaction.
    method MarkQueued(id: nat, clock: Time) returns (queued: bool)
      requires Valid(clock)
      modifies this
      ensures Valid(clock) && View() == Submit(cfg, old(View()), id, clock)
      ensures Outcomes.PutInQueue(old(View()), View(), id, clock, cfg.rabbit, queued)
    {
      Outcomes.SubmitOutcome(cfg, View(), id, clock);
      ConsistentStep(cfg, View(), clock, Coordinator.MarkQueued(id));
      queued := id in jobs && Uploading(jobs[id]);
      if queued {
        Update(id, jobs[id].(status := Queued, progress := 0.0, error := ""));
        if cfg.rabbit {
          Dispatch(id, clock, 0);
        }
      }
    }

    // ----- RabbitMQ consumers -----

    method RegisterConsumer(slot: Slot, clock: Time) returns (priority: Option<nat>)
      requires Valid(clock)
      modifies this
      ensures Valid(clock)
      ensures cfg.rabbit ==> View() == Register(cfg, old(View()), slot, clock)
      ensures Outcomes.Registered(cfg, old(View()), View(), slot, clock, priority)
      ensures priority.Some? ==> Admitted(View(), slot, clock)
    {
      if !cfg.rabbit || slot.worker !in cfg.policies || cfg.policies[slot.worker].capacity == 0 {
        return None;
      }
      var db := Db(jobs, slots, outbox, counters, nextId);
      RegisterKeeps(cfg, db, slot, clock);
      Outcomes.RegisterOutcome(cfg, db, slot, clock);
      var occupied := Occupied(db, slot.worker, clock);
      var admits := (slot.instance in occupied || |occupied| < cfg.policies[slot.worker].capacity)
                    && slot in slots && slots[slot].readyUntil > clock;
      assert admits == Admits(cfg, db, slot, clock);
      if !admits {
        return None;
      }
      slots := slots[slot := slots[slot].(consumerUntil := slots[slot].readyUntil)];
      assert View() == Register(cfg, db, slot, clock);
      priority := Some(10000 - cfg.policies[slot.worker].priority);
    }

    // lookAt, capacityAt and startAt are the clock readings of broker_job.sql,
    // broker_capacity.sql and broker_start.sql.
    method BeginAttempt(r: BeginRequest, now: Time, lookAt: Time, capacityAt: Time, startAt: Time)
      returns (result: BeginResult)
      requires cfg.rabbit && Valid(lookAt) && now <= lookAt <= capacityAt <= startAt
      modifies this
      ensures Valid(startAt)
      ensures BeginOutcome(cfg, old(View()), r, now, lookAt, capacityAt, startAt, View(), result)
      ensures Outcomes.BeginAnswered(cfg, old(View()), View(), r, now, lookAt, capacityAt, startAt, AnswerOf(result))
    {
      result := Begin(r, now, lookAt, capacityAt, startAt);
      BeginKeeps(cfg, old(View()), r, now, lookAt, capacityAt, startAt, View(), result);
      BeginMeans(cfg, old(View()), r, now, lookAt, capacityAt, startAt, View(), result);
    }

    method Begin(r: BeginRequest, now: Time, lookAt: Time, capacityAt: Time, startAt: Time)
      returns (result: BeginResult)
      modifies this
      ensures BeginOutcome(cfg, old(View()), r, now, lookAt, capacityAt, startAt, View(), result)
    {
      if r.job !in jobs {
        return Discarded;
      }
      var row := jobs[r.job];
      if row.dispatch != Some(r.message) || row.status.Done? || row.status.Failed? {
        return Discarded;
      }
      if row.status.Running? && Live(row, lookAt) {
        if row.delivery == Some(r.delivery) && row.slot.worker == r.slot.worker
           && row.slot.instance == r.slot.instance {
          return Started(row.lease);
        }
        return Refused;
      }
      if !row.status.Queued? && !row.status.Running? {
        return Discarded;
      }
      if row.attempts >= row.maxAttempts {
        Update(r.job, ExhaustRow(row, now));
        return Discarded;
      }
      if r.slot.worker !in cfg.policies || cfg.policies[r.slot.worker].capacity == 0 {
        return Refused;
      }
      var db := Db(jobs, slots, outbox, counters, nextId);
      var ready := Admitted(db, r.slot, capacityAt);
      var busy := SlotBusy(db, r.slot, capacityAt);
      var active := |Active(db, r.slot.worker, capacityAt)|;
      if !ready || busy || active >= cfg.policies[r.slot.worker].capacity {
        return Refused;
      }
      var lease := Lease(r.slot.worker, nextId);
      Update(r.job, StartRow(row, lease, now, startAt + cfg.leaseSeconds * SECOND, r.slot, r.delivery));
      nextId := nextId + 1;
      return Started(lease);
    }

    // ----- availability -----

    method ReportAvailability(slot: Slot, ready: bool, now: Time, ghost clock: Time)
      requires Valid(clock) && now <= clock
      modifies this
      ensures Valid(clock) && View() == Report(cfg, old(View()), slot, ready, now)
      ensures Outcomes.SlotReported(cfg, old(View()), View(), slot, ready, now)
    {
      Outcomes.ReportOutcome(cfg, View(), slot, ready, now);
      ConsistentStep(cfg, View(), clock, ReportSlot(slot, ready, now));
      UpsertReport(slot, ready, now);
    }

    // report_availability.sql
    method UpsertReport(slot: Slot, ready: bool, now: Time)
      modifies this`slots
      ensures View() == Report(cfg, old(View()), slot, ready, now)
    {
      slots := map s | s in slots && !(slots[s].readyUntil < now - DAY) :: slots[s];
      assert slots == RecentSlots(old(slots), now);
      var until := now + (if ready then cfg.availabilityTtl else 0) * SECOND;
      if slot in slots {
        var row := slots[slot];
        slots := slots[slot := row.(readyUntil := until,
                                    consumerUntil := if row.consumerUntil > now then until else row.consumerUntil)];
      } else {
        slots := slots[slot := Availability(until, now + (if ready then cfg.demandTtl else 0) * SECOND, -1)];
      }
    }

    // ----- SQL claiming -----

    method ReapExpired(now: Time)
      modifies this`jobs, this`counters
      ensures View() == Reap(old(View()), now)
    {
      var db := Db(jobs, slots, outbox, counters, nextId);
      var left := Reapable(db, now);
      while left != {}
        invariant left <= jobs.Keys
        invariant ReapEach(View(), left, now) == Reap(old(View()), now)
        decreases |left|
      {
        var id := Least(left);
        Update(id, ExhaustRow(jobs[id], now));
        left := left - {id};
      }
    }

    // askAt, selectAt and takeAt are the clock readings of request_work.sql, select_worker.sql
    // and claim_slot.sql; locked are the rows other transactions hold; asked is the database after
    // request_work.sql.
    method ClaimNextJob(slot: Slot, now: Time, askAt: Time, selectAt: Time, takeAt: Time, locked: set<nat>)
      returns (claimed: Option<(nat, Lease)>, ghost asked: Db)
      requires !cfg.rabbit && Valid(askAt) && now <= askAt <= selectAt <= takeAt
      modifies this
      ensures Valid(takeAt)
      ensures ClaimOutcome(cfg, old(View()), slot, now, askAt, selectAt, takeAt, locked, View(), claimed)
      ensures Outcomes.Asked(cfg, old(View()), asked, slot, now, askAt)
      ensures Outcomes.ClaimAnswered(cfg, asked, View(), slot, now, selectAt, takeAt, locked, claimed)
    {
      claimed := Claim(slot, now, askAt, selectAt, takeAt, locked);
      asked := RequestWork(cfg, Reap(old(View()), now), slot, askAt);
      ClaimMeans(cfg, old(View()), slot, now, askAt, selectAt, takeAt, locked, View(), claimed);
      ClaimKeeps(cfg, old(View()), slot, now, askAt, selectAt, takeAt, locked, View(), claimed);
    }

    method Claim(slot: Slot, now: Time, askAt: Time, selectAt: Time, takeAt: Time, locked: set<nat>)
      returns (claimed: Option<(nat, Lease)>)
      modifies this
      ensures ClaimOutcome(cfg, old(View()), slot, now, askAt, selectAt, takeAt, locked, View(), claimed)
    {
      ReapExpired(now);
      if slot in slots && slots[slot].readyUntil > askAt {
        slots := slots[slot := slots[slot].(demandUntil := askAt + cfg.demandTtl * SECOND)];
      }
      var db := Db(jobs, slots, outbox, counters, nextId);
      if !Selected(cfg, db, slot, selectAt) {
        return None;
      }
      if id :| id in jobs && IsCandidate(db, id, locked, takeAt) {
        var lease := Lease(slot.worker, nextId);
        Update(id, ClaimRow(jobs[id], lease, now, takeAt + cfg.leaseSeconds * SECOND, slot));
        nextId := nextId + 1;
        return Some((id, lease));
      }
      NoneClaimable(db, locked, takeAt);
      return None;
    }

    // ----- fenced writes -----

    method Heartbeat(id: nat, lease: Lease, progress: real, clock: Time) returns (accepted: bool)
      requires Valid(clock)
      modifies this
      ensures Valid(clock) && View() == Queue.Heartbeat(cfg, old(View()), id, lease, progress, clock)
      ensures Outcomes.Renewed(old(View()), View(), cfg.leaseSeconds, id, lease, progress, clock, accepted)
    {
      Outcomes.RenewOutcome(cfg, View(), id, lease, progress, clock);
      ConsistentStep(cfg, View(), clock, Renew(id, lease, progress));
      accepted := id in jobs && jobs[id].lease == lease && jobs[id].status.Running? && Live(jobs[id], clock);
      if accepted {
        jobs := jobs[id := jobs[id].(leaseUntil := Some(clock + cfg.leaseSeconds * SECOND), progress := progress)];
      }
    }

    method CompleteJob(id: nat, lease: Lease, text: string, segments: string, path: string,
                       now: Time, ghost clock: Time) returns (accepted: bool)
      requires Valid(clock) && now <= clock
      modifies this
      ensures Valid(clock) && View() == Complete(old(View()), id, lease, now, text, segments, path)
      ensures Outcomes.Completed(old(View()), View(), id, lease, now, text, segments, path, accepted)
    {
      Outcomes.CompleteOutcome(View(), id, lease, now, text, segments, path);
      CompleteKeeps(cfg, View(), clock, id, lease, now, text, segments, path);
      accepted := id in jobs && jobs[id].lease == lease && jobs[id].status.Running? && Live(jobs[id], now);
      if accepted {
        var row := jobs[id].(status := Done, text := text, segments := segments, resultPath := path,
                             progress := 100.0, error := "", lease := NoLease, leaseUntil := None,
                             finishedAt := Some(now));
        Update(id, row);
      }
    }

    // worker_id = '' is the ingress giving up an upload.
    method FailJob(id: nat, lease: Lease, error: string, retryable: bool, now: Time, clock: Time)
      returns (accepted: bool)
      requires Valid(clock) && now <= clock
      modifies this
      ensures View() == Fail(cfg, old(View()), id, lease, now, clock, error, retryable)
      ensures Outcomes.FailedOnce(old(View()), View(), cfg.rabbit, id, lease, now, clock, error, retryable, accepted)
      ensures (lease.Lease? && error in ATTEMPT_ERRORS) || (lease.NoLease? && !retryable && error in UPLOAD_ERRORS) ==>
                Valid(clock)
    {
      Outcomes.FailOutcome(cfg, View(), id, lease, now, clock, error, retryable);
      if lease.Lease? && error in ATTEMPT_ERRORS {
        ConsistentStep(cfg, View(), clock, Coordinator.FailJob(id, lease, now, error, retryable));
      } else if lease.NoLease? && !retryable && error in UPLOAD_ERRORS {
        ConsistentStep(cfg, View(), clock, FailUpload(id, now, error));
      }
      accepted := id in jobs && jobs[id].lease == lease
                  && ((jobs[id].status.Running? && Live(jobs[id], now)) || (lease.NoLease? && Uploading(jobs[id])));
      if accepted {
        var row := jobs[id];
        if retryable && row.attempts < row.maxAttempts {
          Update(id, row.(status := Queued, error := error, progress := 0.0, lease := NoLease,
                          leaseUntil := None, finishedAt := None));
        } else {
          Update(id, row.(status := Failed, error := error, progress := 0.0, lease := NoLease,
                          leaseUntil := None, finishedAt := Some(now)));
        }
        if cfg.rabbit && jobs[id].status.Queued? {
          Dispatch(id, clock, RetryDelay(jobs[id].attempts));
        }
      }
    }

    method CancelJob(id: nat, now: Time, ghost clock: Time) returns (cancelled: bool)
      requires Valid(clock) && now <= clock
      modifies this
      ensures Valid(clock) && View() == Cancel(old(View()), id, now)
      ensures Outcomes.Cancelled(old(View()), View(), id, now, cancelled)
    {
      CancelKeeps(cfg, View(), clock, id, now);
      cancelled := id in jobs && !jobs[id].status.Done? && !jobs[id].status.Failed?;
      if cancelled {
        Update(id, jobs[id].(status := Failed, error := "cancelled", progress := 0.0, finishedAt := Some(now),
                             lease := NoLease, leaseUntil := None));
      }
    }

    method AcknowledgeJob(id: nat, now: Time, ghost clock: Time) returns (acknowledged: bool)
      requires Valid(clock) && now <= clock
      modifies this
      ensures Valid(clock) && View() == Acknowledge(old(View()), id, now)
      ensures Outcomes.Acknowledged(old(View()), View(), id, now, acknowledged)
    {
      Outcomes.AckOutcome(View(), id, now);
      ConsistentStep(cfg, View(), clock, AckJob(id, now));
      acknowledged := id in jobs && (jobs[id].status.Done? || jobs[id].status.Failed?);
      if acknowledged && jobs[id].acknowledgedAt.None? {
        jobs := jobs[id := jobs[id].(acknowledgedAt := Some(now))];
      }
    }

    method CleanupExpiredJobs(now: Time, ghost clock: Time) returns (deleted: set<nat>)
      requires Valid(clock) && now <= clock
      modifies this
      ensures Valid(clock) && View() == Cleanup(old(View()), now, cfg.jobTtl)
      ensures Outcomes.Cleaned(old(View()), View(), now, cfg.jobTtl, deleted)
    {
      CleanupMeans(cfg, View(), clock, now);
      CleanupKeeps(cfg, View(), clock, now);
      deleted := DeleteExpired(now);
    }

    method DeleteExpired(now: Time) returns (deleted: set<nat>)
      modifies this`jobs, this`outbox, this`counters
      ensures View() == Cleanup(old(View()), now, cfg.jobTtl)
      ensures deleted == old(jobs).Keys - jobs.Keys
    {
      ReapRows(View(), now);
      ReapExpired(now);
      deleted := set id | id in jobs && MayDelete(jobs[id], now, cfg.jobTtl);
      jobs := jobs - deleted;
      outbox := map m | m in outbox && outbox[m].job !in deleted :: outbox[m];
    }

    // ----- the outbox -----

    // publish is the broker's answer: true once the publication is confirmed. An exception or a
    // crash before the commit leaves the row as it was.
    method PublishNext(locked: set<nat>, publish: bool, now: Time, clock: Time) returns (sent: Option<nat>)
      requires Valid(clock) && now <= clock
      modifies this
      ensures Valid(clock)
      ensures Outcomes.Sent(old(View()), View(), locked, publish, now, clock, sent)
      ensures View() == if sent.Some? && publish then Published(old(View()), sent.value, now) else old(View())
    {
      var db := Db(jobs, slots, outbox, counters, nextId);
      if m :| m in outbox && IsNext(db, m, locked, clock) {
        sent := Some(m);
        PublishKeeps(cfg, db, m, locked, now, clock);
        if publish {
          outbox := outbox[m := outbox[m].(publishedAt := Some(now))];
        }
      } else {
        NothingDue(db, locked, clock);
        sent := None;
      }
    }
  }

  // The steps of begin_attempt, read column by column.
  lemma BeginMeans(cfg: Config, db: Db, r: BeginRequest, now: Time, lookAt: Time, capacityAt: Time,
                   startAt: Time, after: Db, result: BeginResult)
    requires BeginOutcome(cfg, db, r, now, lookAt, capacityAt, startAt, after, result)
    ensures Outcomes.BeginAnswered(cfg, db, after, r, now, lookAt, capacityAt, startAt, AnswerOf(result))
  {
    match Decide(cfg, db, r, lookAt)
    case Exhaust => Outcomes.ExhaustOutcome(db, r.job, now);
    case Proceed =>
      Outcomes.RoomIff(cfg, db, r.slot, capacityAt);
      Outcomes.StartOutcome(cfg, db, r, now, startAt);
    case _ =>
  }

  // The steps of claim_next_job likewise.
  lemma ClaimMeans(cfg: Config, db: Db, slot: Slot, now: Time, askAt: Time, selectAt: Time, takeAt: Time,
                   locked: set<nat>, after: Db, claimed: Option<(nat, Lease)>)
    requires ClaimOutcome(cfg, db, slot, now, askAt, selectAt, takeAt, locked, after, claimed)
    ensures var asked := RequestWork(cfg, Reap(db, now), slot, askAt);
            Outcomes.Asked(cfg, db, asked, slot, now, askAt)
            && Outcomes.ClaimAnswered(cfg, asked, after, slot, now, selectAt, takeAt, locked, claimed)
  {
    var asked := RequestWork(cfg, Reap(db, now), slot, askAt);
    Outcomes.AskOutcome(cfg, db, slot, now, askAt);
    TakeMeans(cfg, asked, slot, now, selectAt, takeAt, locked, after, claimed);
  }

  // What the last two statements of claim_next_job do.
  ghost predicate TakeOutcome(cfg: Config, asked: Db, slot: Slot, now: Time, selectAt: Time, takeAt: Time,
                              locked: set<nat>, after: Db, claimed: Option<(nat, Lease)>) {
    if !Selected(cfg, asked, slot, selectAt) then claimed.None? && after == asked
    else match claimed
      case Some((id, lease)) =>
        IsCandidate(asked, id, locked, takeAt) && lease == FreshLease(asked, slot)
        && after == TakeJob(cfg, asked, id, slot, now, takeAt)
      case None =>
        after == asked && forall id :: id in asked.jobs && id !in locked ==> !Claimable(asked.jobs[id], takeAt)
  }

  lemma TakeMeans(cfg: Config, asked: Db, slot: Slot, now: Time, selectAt: Time, takeAt: Time,
                  locked: set<nat>, after: Db, claimed: Option<(nat, Lease)>)
    requires TakeOutcome(cfg, asked, slot, now, selectAt, takeAt, locked, after, claimed)
    ensures Outcomes.ClaimAnswered(cfg, asked, after, slot, now, selectAt, takeAt, locked, claimed)
  {
    Outcomes.FirstIff(cfg, asked, slot, selectAt);
    match claimed
    case Some((id, _)) =>
      Outcomes.OldestIff(asked, id, locked, takeAt);
      Outcomes.TakenOutcome(cfg, asked, id, slot, now, takeAt);
    case None =>
      assert forall id :: id in asked.jobs ==>
        (Claimable(asked.jobs[id], takeAt) <==> Outcomes.Available(asked.jobs[id], takeAt));
  }

  // The undisturbed begin_attempt is the coordinator's three steps with the clock in between.
  lemma BeginKeeps(cfg: Config, db: Db, r: BeginRequest, now: Time, lookAt: Time, capacityAt: Time,
                   startAt: Time, after: Db, result: BeginResult)
    requires cfg.rabbit && Consistent(cfg, db, lookAt) && now <= lookAt <= capacityAt <= startAt
    requires BeginOutcome(cfg, db, r, now, lookAt, capacityAt, startAt, after, result)
    ensures Consistent(cfg, after, startAt)
  {
    var s0 := At(db, lookAt);
    var s1 := Apply(cfg, s0, BeginLook(r, now));
    InvKept(cfg, s0, BeginLook(r, now));
    if Decide(cfg, db, r, lookAt).Proceed? && HasRoom(cfg, db, r.slot, capacityAt) {
      BeginStarts(cfg, s1, r, now, capacityAt, startAt);
    } else {
      ConsistentEnd(cfg, s1);
      assert after == s1.db;
      ConsistentLater(cfg, after, lookAt, startAt);
    }
  }

  lemma BeginStarts(cfg: Config, s1: Coord, r: BeginRequest, now: Time, capacityAt: Time, startAt: Time)
    requires ValidConfig(cfg) && Inv(cfg, s1) && s1.lock == BeginRow(r, now)
    requires s1.clock <= capacityAt <= startAt && HasRoom(cfg, s1.db, r.slot, capacityAt)
    ensures r.job in s1.db.jobs && Consistent(cfg, StartJob(cfg, s1.db, r, now, startAt), startAt)
  {
    var s2 := Apply(cfg, s1, Tick(capacityAt));
    InvKept(cfg, s1, Tick(capacityAt));
    var s3 := Apply(cfg, s2, BeginCapacity);
    InvKept(cfg, s2, BeginCapacity);
    var s4 := Apply(cfg, s3, Tick(startAt));
    InvKept(cfg, s3, Tick(startAt));
    InvKept(cfg, s4, BeginWrite);
    ConsistentEnd(cfg, Apply(cfg, s4, BeginWrite));
  }

  lemma NoneClaimable(db: Db, locked: set<nat>, clock: Time)
    requires !exists id :: id in db.jobs && IsCandidate(db, id, locked, clock)
    ensures forall id :: id in db.jobs && id !in locked ==> !Claimable(db.jobs[id], clock)
  {
    if exists id :: id in db.jobs && id !in locked && Claimable(db.jobs[id], clock) {
      CandidateExists(db, locked, clock);
    }
  }

  lemma ClaimKeeps(cfg: Config, db: Db, slot: Slot, now: Time, askAt: Time, selectAt: Time, takeAt: Time,
                   locked: set<nat>, after: Db, claimed: Option<(nat, Lease)>)
    requires !cfg.rabbit && Consistent(cfg, db, askAt) && now <= askAt <= selectAt <= takeAt
    requires ClaimOutcome(cfg, db, slot, now, askAt, selectAt, takeAt, locked, after, claimed)
    ensures Consistent(cfg, after, takeAt)
  {
    ClaimKeepsReap(cfg, db, now, askAt);
    ClaimKeepsRequest(cfg, Reap(db, now), slot, askAt);
    var asked := RequestWork(cfg, Reap(db, now), slot, askAt);
    ConsistentLater(cfg, asked, askAt, takeAt);
    if Selected(cfg, asked, slot, selectAt) && claimed.Some? {
      ClaimKeepsTake(cfg, asked, claimed.value.0, slot, now, takeAt, locked);
    }
  }

  lemma CompleteKeeps(cfg: Config, db: Db, clock: Time, id: nat, lease: Lease, now: Time,
                      text: string, segments: string, path: string)
    requires Consistent(cfg, db, clock) && now <= clock
    ensures Consistent(cfg, Complete(db, id, lease, now, text, segments, path), clock)
  {
    var e := CompleteJob(id, lease, now, text, segments, path);
    ConsistentStep(cfg, db, clock, e);
    ConsistentEnd(cfg, Apply(cfg, At(db, clock), e));
  }

  lemma PublishKeeps(cfg: Config, db: Db, m: nat, locked: set<nat>, now: Time, clock: Time)
    requires Consistent(cfg, db, clock) && now <= clock && IsNext(db, m, locked, clock)
    ensures Consistent(cfg, Published(db, m, now), clock)
    ensures Outcomes.Sent(db, Published(db, m, now), locked, true, now, clock, Some(m))
    ensures Outcomes.Sent(db, db, locked, false, now, clock, Some(m))
  {
    ConsistentStep(cfg, db, clock, MarkPublished(m, now));
    ConsistentEnd(cfg, Apply(cfg, At(db, clock), MarkPublished(m, now)));
    Outcomes.NextIff(db, m, locked, clock);
  }

  lemma NothingDue(db: Db, locked: set<nat>, clock: Time)
    requires !exists m :: m in db.outbox && IsNext(db, m, locked, clock)
    ensures forall m :: m in db.outbox && m !in locked ==> !Outcomes.ReadyToGo(db.outbox[m], clock)
  {
    if exists m :: m in db.outbox && Due(db, m, locked, clock) {
      NextExists(db, locked, clock);
    }
    assert forall m :: m in db.outbox && m !in locked && Outcomes.ReadyToGo(db.outbox[m], clock) ==>
      Due(db, m, locked, clock);
  }

  lemma RegisterKeeps(cfg: Config, db: Db, slot: Slot, clock: Time)
    requires cfg.rabbit && Consistent(cfg, db, clock)
    ensures Consistent(cfg, Register(cfg, db, slot, clock), clock)
  {
    ConsistentStep(cfg, db, clock, RegisterSlot(slot));
    ConsistentEnd(cfg, Apply(cfg, At(db, clock), RegisterSlot(slot)));
  }

  lemma CreateKeeps(cfg: Config, db: Db, clock: Time, opts: Options, now: Time)
    requires Consistent(cfg, db, clock) && now <= clock
    requires opts.requestId == "" || forall i :: i in db.jobs ==> db.jobs[i].requestId != opts.requestId
    ensures Consistent(cfg, Create(cfg, db, opts, now), clock)
    ensures Outcomes.Created(db, Create(cfg, db, opts, now), cfg.maxAttempts, opts, now, Some(db.nextId))
  {
    var e := CreateJob(opts, now);
    ConsistentStep(cfg, db, clock, e);
    ConsistentEnd(cfg, Apply(cfg, At(db, clock), e));
    Outcomes.CreateOutcome(cfg, db, opts, now);
  }

  lemma CancelKeeps(cfg: Config, db: Db, clock: Time, id: nat, now: Time)
    requires Consistent(cfg, db, clock) && now <= clock
    ensures Consistent(cfg, Cancel(db, id, now), clock)
    ensures Outcomes.Cancelled(db, Cancel(db, id, now), id, now, id in db.jobs && !Terminal(db.jobs[id]))
  {
    var e := CancelJob(id, now);
    ConsistentStep(cfg, db, clock, e);
    ConsistentEnd(cfg, Apply(cfg, At(db, clock), e));
    Outcomes.CancelOutcome(db, id, now);
  }

  lemma CleanupKeeps(cfg: Config, db: Db, clock: Time, now: Time)
    requires Consistent(cfg, db, clock) && now <= clock
    ensures Consistent(cfg, Cleanup(db, now, cfg.jobTtl), clock)
  {
    ConsistentStep(cfg, db, clock, CleanUp(now));
    ConsistentEnd(cfg, Apply(cfg, At(db, clock), CleanUp(now)));
  }

  lemma CleanupMeans(cfg: Config, db: Db, clock: Time, now: Time)
    requires Consistent(cfg, db, clock)
    ensures Outcomes.Cleaned(db, Cleanup(db, now, cfg.jobTtl), now, cfg.jobTtl,
                             db.jobs.Keys - Cleanup(db, now, cfg.jobTtl).jobs.Keys)
  {
    forall id | id in db.jobs && db.jobs[id].status.Running?
      ensures db.jobs[id].acknowledgedAt.None?
    {
      assert RowInv(cfg, clock, db.nextId, db.jobs[id]);
    }
    Outcomes.CleanupOutcome(db, now, cfg.jobTtl);
  }

  lemma ClaimKeepsReap(cfg: Config, db: Db, now: Time, clock: Time)
    requires !cfg.rabbit && Consistent(cfg, db, clock) && now <= clock
    ensures Consistent(cfg, Reap(db, now), clock)
  {
    var s := At(db, clock).(lock := ClaimOpen(Slot("", ""), now));
    InvKept(cfg, s, ClaimReap);
    ConsistentEnd(cfg, Apply(cfg, s, ClaimReap));
  }

  lemma ClaimKeepsRequest(cfg: Config, db: Db, slot: Slot, clock: Time)
    requires !cfg.rabbit && Consistent(cfg, db, clock)
    ensures Consistent(cfg, RequestWork(cfg, db, slot, clock), clock)
  {
    var s := At(db, clock).(lock := ClaimReaped(slot, 0));
    InvKept(cfg, s, ClaimRequest);
    ConsistentEnd(cfg, Apply(cfg, s, ClaimRequest));
  }

  lemma ClaimKeepsTake(cfg: Config, db: Db, id: nat, slot: Slot, now: Time, takeAt: Time,
                       locked: set<nat>)
    requires !cfg.rabbit && Consistent(cfg, db, takeAt) && now <= takeAt
    requires IsCandidate(db, id, locked, takeAt)
    ensures Consistent(cfg, TakeJob(cfg, db, id, slot, now, takeAt), takeAt)
  {
    var s := At(db, takeAt).(lock := ClaimSelected(slot, now));
    InvKept(cfg, s, ClaimTake(Some(id), locked));
    ConsistentEnd(cfg, Apply(cfg, s, ClaimTake(Some(id), locked)));
  }
}
