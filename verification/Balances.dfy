// Conservation of the observation counters: the trigger's totals always balance against the
// rows that are still there, through retries, reclaims, bulk reaping and deletion.
module Balances {
  import opened Base
  import opened Rows
  import opened Observations
  import opened Queue
  import opened Lifecycle
  import opened Bulk
  import opened Coordinator

  function RunningJobs(db: Db): set<nat> {
    set id | id in db.jobs && db.jobs[id].status.Running?
  }

  function PendingJobs(db: Db): set<nat> {
    set id | id in db.jobs && !Terminal(db.jobs[id])
  }

  ghost function T(db: Db, e: Event): nat {
    Total(db.counters, e)
  }

  ghost predicate Balanced(db: Db, reclaimed: nat, cancelledRunning: nat) {
    && T(db, Submitted) == T(db, Completed) + T(db, Failures) + T(db, Cancelled) + |PendingJobs(db)|
    && T(db, Attempts) == T(db, Completed) + T(db, AttemptFailures) + reclaimed + cancelledRunning
                          + |RunningJobs(db)|
    && T(db, Attempts) == T(db, QueueWait) + T(db, Retries)
    && T(db, Turnaround) == T(db, Completed) == T(db, Processing)
  }

  // ----- one row -----

  lemma MemberMoves(before: set<nat>, after: set<nat>, id: nat)
    requires before - {id} == after - {id}
    ensures |after| + Once(id in before) == |before| + Once(id in after)
  {
    assert before == (before - {id}) + if id in before then {id} else {};
    assert after == (after - {id}) + if id in after then {id} else {};
  }

  lemma WriteMoves(db: Db, id: nat, n: Job)
    requires id in db.jobs
    ensures var d, o := Write(db, id, n), db.jobs[id];
            && (forall e :: T(d, e) == T(db, e) + Expected(o, n, e))
            && |RunningJobs(d)| + Once(o.status.Running?) == |RunningJobs(db)| + Once(n.status.Running?)
            && |PendingJobs(d)| + Once(!Terminal(o)) == |PendingJobs(db)| + Once(!Terminal(n))
  {
    var d, o := Write(db, id, n), db.jobs[id];
    forall e
      ensures T(d, e) == T(db, e) + Expected(o, n, e)
    {
      TotalRecord(db.counters, Events(o, n), e);
      EventCounts(o, n, e);
    }
    MemberMoves(RunningJobs(db), RunningJobs(d), id);
    MemberMoves(PendingJobs(db), PendingJobs(d), id);
  }

  // What a row change contributes to the two history terms.
  predicate Lawful(o: Job, n: Job, reclaims: nat, cancelsRunning: nat) {
    && !Terminal(o)
    && (n.attempts > o.attempts ==>
         n.status.Running? && Unfinished(o) && reclaims == Once(o.status.Running?) && cancelsRunning == 0)
    && (n.attempts <= o.attempts ==>
         && reclaims == 0
         && cancelsRunning == Once(o.status.Running? && n.status.Failed? && n.error == "cancelled")
         && (n.status.Running? ==> o.status.Running?)
         && (o.status.Running? && !Terminal(n) ==> (n.status.Queued? && n.error != "cancelled") || n.status.Running?))
    && (n.status.Done? ==> o.status.Running? && o.attemptStartedAt.Some? && n.attempts == o.attempts)
  }

  lemma WriteBalanced(db: Db, id: nat, n: Job, r: nat, c: nat, reclaims: nat, cancelsRunning: nat)
    requires id in db.jobs && Balanced(db, r, c) && Lawful(db.jobs[id], n, reclaims, cancelsRunning)
    ensures Balanced(Write(db, id, n), r + reclaims, c + cancelsRunning)
  {
    WriteMoves(db, id, n);
  }

  predicate SameStatuses(db: Db, d: Db) {
    && (forall id :: id in d.jobs && (id !in db.jobs || d.jobs[id].status != db.jobs[id].status) ==>
         Terminal(d.jobs[id]))
    && (forall id :: id in db.jobs && (id !in d.jobs || d.jobs[id].status != db.jobs[id].status) ==>
         Terminal(db.jobs[id]))
  }

  lemma QuietSets(db: Db, d: Db)
    requires SameStatuses(db, d)
    ensures RunningJobs(d) == RunningJobs(db) && PendingJobs(d) == PendingJobs(db)
  {
  }

  // Columns the trigger does not watch.
  lemma QuietBalanced(db: Db, d: Db, r: nat, c: nat)
    requires Balanced(db, r, c) && d.counters == db.counters
    requires SameStatuses(db, d)
    ensures Balanced(d, r, c)
  {
    QuietSets(db, d);
  }

  lemma CreateMoves(cfg: Config, db: Db, opts: Options, now: Time)
    requires db.nextId !in db.jobs
    ensures var d := Create(cfg, db, opts, now);
            && (forall e :: T(d, e) == T(db, e) + Once(e.Submitted?))
            && RunningJobs(d) == RunningJobs(db)
            && |PendingJobs(d)| == |PendingJobs(db)| + 1
  {
    var d := Create(cfg, db, opts, now);
    forall e
      ensures T(d, e) == T(db, e) + Once(e.Submitted?)
    {
      TotalBump(db.counters, Key("ingress", Submitted), e);
    }
    CreateSets(cfg, db, opts, now);
  }

  lemma CreateSets(cfg: Config, db: Db, opts: Options, now: Time)
    requires db.nextId !in db.jobs
    ensures var d := Create(cfg, db, opts, now);
            RunningJobs(d) == RunningJobs(db) && PendingJobs(d) == PendingJobs(db) + {db.nextId}
  {
  }

  lemma CreateBalanced(cfg: Config, db: Db, opts: Options, now: Time, r: nat, c: nat)
    requires Balanced(db, r, c) && db.nextId !in db.jobs
    ensures Balanced(Create(cfg, db, opts, now), r, c)
  {
    CreateMoves(cfg, db, opts, now);
  }

  // ----- bulk reaping -----

  lemma {:induction false} ReapEachBalanced(db: Db, ids: set<nat>, now: Time, r: nat, c: nat)
    requires ids <= db.jobs.Keys && Balanced(db, r, c)
    requires forall id :: id in ids ==> db.jobs[id].status.Running?
    ensures Balanced(ReapEach(db, ids, now), r, c)
    decreases |ids|
  {
    if ids != {} {
      var x := Least(ids);
      WriteBalanced(db, x, ExhaustRow(db.jobs[x], now), r, c, 0, 0);
      ReapEachBalanced(ExhaustJob(db, x, now), ids - {x}, now, r, c);
    }
  }

  lemma PurgeBalanced(db: Db, ids: set<nat>, r: nat, c: nat)
    requires Balanced(db, r, c)
    requires forall id :: id in db.jobs && id in ids ==> Terminal(db.jobs[id])
    ensures Balanced(Purge(db, ids), r, c)
  {
    QuietBalanced(db, Purge(db, ids), r, c);
  }

  lemma DeletableTerminal(db: Db, now: Time, ttl: nat)
    requires forall id :: id in db.jobs && db.jobs[id].finishedAt.Some? ==> Terminal(db.jobs[id])
    ensures forall id :: id in Deletable(Reap(db, now), now, ttl) ==> Terminal(Reap(db, now).jobs[id])
  {
    ReapRows(db, now);
  }

  lemma CleanupBalanced(db: Db, now: Time, ttl: nat, r: nat, c: nat)
    requires Balanced(db, r, c)
    requires forall id :: id in db.jobs && db.jobs[id].finishedAt.Some? ==> Terminal(db.jobs[id])
    ensures Balanced(Cleanup(db, now, ttl), r, c)
  {
    ReapEachBalanced(db, Reapable(db, now), now, r, c);
    DeletableTerminal(db, now, ttl);
    PurgeBalanced(Reap(db, now), Deletable(Reap(db, now), now, ttl), r, c);
  }

  lemma ReconcileBalanced(db: Db, clock: Time, r: nat, c: nat)
    requires Balanced(db, r, c)
    ensures Balanced(Reconcile(db, clock), r, c)
  {
    var mid := Detach(db, clock);
    AdoptEachJobs(mid, Orphans(mid));
    assert forall id :: id in db.jobs ==> mid.jobs[id].status == db.jobs[id].status;
    QuietBalanced(db, Reconcile(db, clock), r, c);
  }

  // ----- the transactions -----

  lemma EnqueueBalanced(db: Db, id: nat, clock: Time, delay: nat, r: nat, c: nat)
    requires Balanced(db, r, c) && id in db.jobs
    ensures Balanced(Enqueue(db, id, clock, delay), r, c)
  {
    QuietBalanced(db, Enqueue(db, id, clock, delay), r, c);
  }

  lemma SubmitBalanced(cfg: Config, db: Db, id: nat, clock: Time, r: nat, c: nat)
    requires Balanced(db, r, c)
    ensures Balanced(Submit(cfg, db, id, clock), r, c)
  {
    if id in db.jobs && Uploading(db.jobs[id]) {
      WriteBalanced(db, id, QueueRow(db.jobs[id]), r, c, 0, 0);
      EnqueueBalanced(Write(db, id, QueueRow(db.jobs[id])), id, clock, 0, r, c);
    }
  }

  lemma DownloadBalanced(db: Db, id: nat, r: nat, c: nat)
    requires Balanced(db, r, c)
    ensures Balanced(Download(db, id), r, c)
  {
    if id in db.jobs && Uploading(db.jobs[id]) {
      WriteBalanced(db, id, DownloadRow(db.jobs[id]), r, c, 0, 0);
    }
  }

  lemma InterruptBalanced(db: Db, id: nat, r: nat, c: nat)
    requires Balanced(db, r, c)
    ensures Balanced(Interrupt(db, id), r, c)
  {
    QuietBalanced(db, Interrupt(db, id), r, c);
  }

  lemma FailBalanced(cfg: Config, db: Db, id: nat, lease: Lease, now: Time, clock: Time,
                     error: string, retryable: bool, r: nat, c: nat)
    requires Balanced(db, r, c) && error != "cancelled"
    ensures Balanced(Fail(cfg, db, id, lease, now, clock, error, retryable), r, c)
  {
    if FailAccepted(db, id, lease, now) {
      var n := FailRow(db.jobs[id], now, error, retryable);
      WriteBalanced(db, id, n, r, c, 0, 0);
      EnqueueBalanced(Write(db, id, n), id, clock, RetryDelay(n.attempts), r, c);
    }
  }

  lemma CompleteBalanced(db: Db, id: nat, lease: Lease, now: Time,
                         text: string, segments: string, path: string, r: nat, c: nat)
    requires Balanced(db, r, c)
    requires id in db.jobs && db.jobs[id].status.Running? ==> db.jobs[id].attemptStartedAt.Some?
    ensures Balanced(Complete(db, id, lease, now, text, segments, path), r, c)
  {
    if CompleteAccepted(db, id, lease, now) {
      WriteBalanced(db, id, CompleteRow(db.jobs[id], now, text, segments, path), r, c, 0, 0);
    }
  }

  lemma ExhaustBalanced(db: Db, id: nat, now: Time, r: nat, c: nat)
    requires Balanced(db, r, c) && id in db.jobs && db.jobs[id].status.Running?
    ensures Balanced(ExhaustJob(db, id, now), r, c)
  {
    WriteBalanced(db, id, ExhaustRow(db.jobs[id], now), r, c, 0, 0);
  }

  lemma CancelBalanced(db: Db, id: nat, now: Time, r: nat, c: nat)
    requires Balanced(db, r, c)
    ensures Balanced(Cancel(db, id, now), r, c + Once(id in db.jobs && db.jobs[id].status.Running?))
  {
    if id in db.jobs && !Terminal(db.jobs[id]) {
      WriteBalanced(db, id, CancelRow(db.jobs[id], now), r, c, 0, Once(db.jobs[id].status.Running?));
    }
  }

  lemma SetBalanced(db: Db, id: nat, n: Job, r: nat, c: nat)
    requires Balanced(db, r, c) && id in db.jobs && n.status == db.jobs[id].status
    ensures Balanced(Set(db, id, n), r, c)
  {
    QuietBalanced(db, Set(db, id, n), r, c);
  }

  lemma TakenBalanced(db: Db, id: nat, n: Job, nextId: nat, r: nat, c: nat)
    requires Balanced(db, r, c) && id in db.jobs && Unfinished(db.jobs[id])
    requires n.status.Running? && n.attempts > db.jobs[id].attempts
    ensures Balanced(Write(db, id, n).(nextId := nextId), r + Once(db.jobs[id].status.Running?), c)
  {
    var more := Once(db.jobs[id].status.Running?);
    WriteBalanced(db, id, n, r, c, more, 0);
    QuietBalanced(Write(db, id, n), Write(db, id, n).(nextId := nextId), r + more, c);
  }

  // ----- every step -----

  ghost predicate BalanceInv(s: Coord) {
    Balanced(s.db, s.hist.reclaimed, s.hist.cancelledRunning)
  }

  lemma IngressKept(cfg: Config, s: Coord, e: Step)
    requires ValidConfig(cfg) && Inv(cfg, s) && Enabled(cfg, s, e) && BalanceInv(s) && Ingress(e)
    ensures BalanceInv(Apply(cfg, s, e))
  {
    var r, c := s.hist.reclaimed, s.hist.cancelledRunning;
    if e.CreateJob? {
      assert s.db.nextId !in s.db.jobs;
      CreateBalanced(cfg, s.db, e.opts, e.now, r, c);
    } else if e.MarkQueued? {
      SubmitBalanced(cfg, s.db, e.id, s.clock, r, c);
    } else {
      DownloadBalanced(s.db, e.id, r, c);
      InterruptBalanced(s.db, e.id, r, c);
    }
  }

  lemma StartKept(cfg: Config, s: Coord, e: Step)
    requires ValidConfig(cfg) && Inv(cfg, s) && Enabled(cfg, s, e) && BalanceInv(s) && Starting(e)
    ensures BalanceInv(Apply(cfg, s, e))
  {
    var t := Apply(cfg, s, e);
    var r, c := s.hist.reclaimed, s.hist.cancelledRunning;
    if e.BeginWrite? || e.candidate.Some? {
      var id := if e.BeginWrite? then s.lock.r.job else e.candidate.value;
      TakenBalanced(s.db, id, t.db.jobs[id], t.db.nextId, r, c);
    }
  }

  lemma FailKept(cfg: Config, s: Coord, e: Step)
    requires ValidConfig(cfg) && Inv(cfg, s) && Enabled(cfg, s, e) && BalanceInv(s) && Failing(e)
    ensures BalanceInv(Apply(cfg, s, e))
  {
    var r, c := s.hist.reclaimed, s.hist.cancelledRunning;
    if e.FailJob? {
      FailBalanced(cfg, s.db, e.id, e.lease, e.now, s.clock, e.error, e.retryable, r, c);
    } else {
      FailBalanced(cfg, s.db, e.id, NoLease, e.now, s.clock, e.error, false, r, c);
    }
  }

  lemma AttemptKept(cfg: Config, s: Coord, e: Step)
    requires ValidConfig(cfg) && Inv(cfg, s) && Enabled(cfg, s, e) && BalanceInv(s) && Attempt(e)
    ensures BalanceInv(Apply(cfg, s, e))
  {
    var r, c := s.hist.reclaimed, s.hist.cancelledRunning;
    if e.BeginLook? {
      if Decide(cfg, s.db, e.r, s.clock).Exhaust? {
        ExhaustBalanced(s.db, e.r.job, e.now, r, c);
      }
    } else if e.Renew? {
      if RenewAccepted(s.db, e.id, e.lease, s.clock) {
        SetBalanced(s.db, e.id, Heartbeat(cfg, s.db, e.id, e.lease, e.progress, s.clock).jobs[e.id], r, c);
      }
    } else {
      CompleteBalanced(s.db, e.id, e.lease, e.now, e.text, e.segments, e.path, r, c);
    }
  }

  lemma ClientKept(cfg: Config, s: Coord, e: Step)
    requires ValidConfig(cfg) && Inv(cfg, s) && Enabled(cfg, s, e) && BalanceInv(s) && Client(e)
    ensures BalanceInv(Apply(cfg, s, e))
  {
    var r, c := s.hist.reclaimed, s.hist.cancelledRunning;
    if e.CancelJob? {
      CancelBalanced(s.db, e.id, e.now, r, c);
    } else if e.id in s.db.jobs && Terminal(s.db.jobs[e.id]) {
      SetBalanced(s.db, e.id, AckRow(s.db.jobs[e.id], e.now), r, c);
    }
  }

  lemma BulkKept(cfg: Config, s: Coord, e: Step)
    requires ValidConfig(cfg) && Inv(cfg, s) && Enabled(cfg, s, e) && BalanceInv(s) && !SingleRow(e)
    ensures BalanceInv(Apply(cfg, s, e))
  {
    var r, c := s.hist.reclaimed, s.hist.cancelledRunning;
    if e.ClaimReap? {
      ReapEachBalanced(s.db, Reapable(s.db, s.lock.now), s.lock.now, r, c);
    } else if e.CleanUp? {
      CleanupBalanced(s.db, e.now, cfg.jobTtl, r, c);
    } else {
      ReconcileBalanced(s.db, s.clock, r, c);
    }
  }

  lemma OtherKept(cfg: Config, s: Coord, e: Step)
    requires Enabled(cfg, s, e) && BalanceInv(s) && !TouchesJobs(e)
    ensures BalanceInv(Apply(cfg, s, e))
  {
    var t := Apply(cfg, s, e);
    assert t.db.jobs == s.db.jobs && t.db.counters == s.db.counters && t.hist == s.hist;
    QuietBalanced(s.db, t.db, s.hist.reclaimed, s.hist.cancelledRunning);
  }

  lemma BalanceKept(cfg: Config, s: Coord, e: Step)
    requires ValidConfig(cfg) && Inv(cfg, s) && Enabled(cfg, s, e) && BalanceInv(s)
    ensures BalanceInv(Apply(cfg, s, e))
  {
    if Ingress(e) {
      IngressKept(cfg, s, e);
    } else if Starting(e) {
      StartKept(cfg, s, e);
    } else if Failing(e) {
      FailKept(cfg, s, e);
    } else if Attempt(e) {
      AttemptKept(cfg, s, e);
    } else if Client(e) {
      ClientKept(cfg, s, e);
    } else if !SingleRow(e) {
      BulkKept(cfg, s, e);
    } else {
      OtherKept(cfg, s, e);
    }
  }

  // From an empty database, after any run:
  //   submitted = completed + failed + cancelled + rows still open
  //   attempts  = completed + attempt failures + reclaimed leases + cancelled while running + running
  //   attempts  = first starts + retries, and every completion was timed twice.
  lemma {:induction false} CountersBalance(cfg: Config, tr: seq<Coord>, es: seq<Step>, k: nat)
    requires Run(cfg, tr, es) && k < |tr|
    ensures Inv(cfg, tr[k])
    ensures Balanced(tr[k].db, tr[k].hist.reclaimed, tr[k].hist.cancelledRunning)
  {
    if k > 0 {
      CountersBalance(cfg, tr, es, k - 1);
      InvKept(cfg, tr[k - 1], es[k - 1]);
      BalanceKept(cfg, tr[k - 1], es[k - 1]);
    } else {
      assert RunningJobs(START.db) == {} && PendingJobs(START.db) == {};
    }
  }
}
