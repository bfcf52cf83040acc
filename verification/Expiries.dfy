// Conservation of the lease_expirations counter: every lease that ran out was either reclaimed by
// another attempt or ended its job for want of attempts.
module Expiries {
  import opened Base
  import opened Rows
  import opened Observations
  import opened Queue
  import opened Lifecycle
  import opened Bulk
  import opened Coordinator
  import opened Balances

  // What a change of one row adds to the counter.
  function Expires(o: Job, n: Job): nat {
    Expected(o, n, LeaseExpirations)
  }

  lemma WriteExpires(db: Db, id: nat, n: Job)
    requires id in db.jobs
    ensures T(Write(db, id, n), LeaseExpirations) == T(db, LeaseExpirations) + Expires(db.jobs[id], n)
  {
    WriteMoves(db, id, n);
  }

  lemma {:induction false} ReapEachExpires(db: Db, ids: set<nat>, now: Time)
    requires ids <= db.jobs.Keys && forall id :: id in ids ==> db.jobs[id].status.Running?
    ensures T(ReapEach(db, ids, now), LeaseExpirations) == T(db, LeaseExpirations) + |ids|
    decreases |ids|
  {
    if ids != {} {
      var x := Least(ids);
      WriteExpires(db, x, ExhaustRow(db.jobs[x], now));
      ReapEachExpires(ExhaustJob(db, x, now), ids - {x}, now);
    }
  }

  lemma ReapExpires(db: Db, now: Time)
    ensures T(Reap(db, now), LeaseExpirations) == T(db, LeaseExpirations) + |Reapable(db, now)|
  {
    ReapEachExpires(db, Reapable(db, now), now);
  }

  ghost predicate ExpiryInv(s: Coord) {
    T(s.db, LeaseExpirations) == s.hist.reclaimed + s.hist.exhausted
  }

  lemma IngressExpiry(cfg: Config, s: Coord, e: Step)
    requires ValidConfig(cfg) && Inv(cfg, s) && Enabled(cfg, s, e) && ExpiryInv(s) && Ingress(e)
    ensures ExpiryInv(Apply(cfg, s, e))
  {
    if e.CreateJob? {
      CreateMoves(cfg, s.db, e.opts, e.now);
    } else if e.id in s.db.jobs && Uploading(s.db.jobs[e.id]) {
      WriteExpires(s.db, e.id, if e.MarkQueued? then QueueRow(s.db.jobs[e.id]) else DownloadRow(s.db.jobs[e.id]));
    }
  }

  lemma StartExpiry(cfg: Config, s: Coord, e: Step)
    requires ValidConfig(cfg) && Inv(cfg, s) && Enabled(cfg, s, e) && ExpiryInv(s) && Starting(e)
    ensures ExpiryInv(Apply(cfg, s, e))
  {
    if e.BeginWrite? || e.candidate.Some? {
      var id := if e.BeginWrite? then s.lock.r.job else e.candidate.value;
      WriteExpires(s.db, id, Apply(cfg, s, e).db.jobs[id]);
    }
  }

  lemma FailExpires(cfg: Config, db: Db, id: nat, lease: Lease, now: Time, clock: Time, error: string, retryable: bool)
    requires error != "attempts_exhausted"
    ensures T(Fail(cfg, db, id, lease, now, clock, error, retryable), LeaseExpirations) == T(db, LeaseExpirations)
  {
    if FailAccepted(db, id, lease, now) {
      WriteExpires(db, id, FailRow(db.jobs[id], now, error, retryable));
    }
  }

  lemma FailExpiry(cfg: Config, s: Coord, e: Step)
    requires ValidConfig(cfg) && Enabled(cfg, s, e) && ExpiryInv(s) && Failing(e)
    ensures ExpiryInv(Apply(cfg, s, e))
  {
    FailExpires(cfg, s.db, e.id, if e.FailJob? then e.lease else NoLease, e.now, s.clock, e.error,
                e.FailJob? && e.retryable);
  }

  lemma AttemptExpiry(cfg: Config, s: Coord, e: Step)
    requires ValidConfig(cfg) && Inv(cfg, s) && Enabled(cfg, s, e) && ExpiryInv(s) && Attempt(e)
    ensures ExpiryInv(Apply(cfg, s, e))
  {
    if e.BeginLook? && Decide(cfg, s.db, e.r, s.clock).Exhaust? {
      WriteExpires(s.db, e.r.job, ExhaustRow(s.db.jobs[e.r.job], e.now));
    } else if e.CompleteJob? && CompleteAccepted(s.db, e.id, e.lease, e.now) {
      WriteExpires(s.db, e.id, CompleteRow(s.db.jobs[e.id], e.now, e.text, e.segments, e.path));
    }
  }

  lemma ClientExpiry(cfg: Config, s: Coord, e: Step)
    requires ValidConfig(cfg) && Inv(cfg, s) && Enabled(cfg, s, e) && ExpiryInv(s) && Client(e)
    ensures ExpiryInv(Apply(cfg, s, e))
  {
    if e.CancelJob? && e.id in s.db.jobs && !Terminal(s.db.jobs[e.id]) {
      WriteExpires(s.db, e.id, CancelRow(s.db.jobs[e.id], e.now));
    }
  }

  lemma BulkExpiry(cfg: Config, s: Coord, e: Step)
    requires ValidConfig(cfg) && Enabled(cfg, s, e) && ExpiryInv(s) && !SingleRow(e)
    ensures ExpiryInv(Apply(cfg, s, e))
  {
    if e.ReconcileAll? {
      var mid := Detach(s.db, s.clock);
      AdoptEachJobs(mid, Orphans(mid));
    } else {
      ReapExpires(s.db, if e.CleanUp? then e.now else s.lock.now);
    }
  }

  lemma ExpiryKept(cfg: Config, s: Coord, e: Step)
    requires ValidConfig(cfg) && Inv(cfg, s) && Enabled(cfg, s, e) && ExpiryInv(s)
    ensures ExpiryInv(Apply(cfg, s, e))
  {
    if Ingress(e) {
      IngressExpiry(cfg, s, e);
    } else if Starting(e) {
      StartExpiry(cfg, s, e);
    } else if Failing(e) {
      FailExpiry(cfg, s, e);
    } else if Attempt(e) {
      AttemptExpiry(cfg, s, e);
    } else if Client(e) {
      ClientExpiry(cfg, s, e);
    } else if !SingleRow(e) {
      BulkExpiry(cfg, s, e);
    }
  }

  lemma {:induction false} RunExpiry(cfg: Config, tr: seq<Coord>, es: seq<Step>, k: nat)
    requires Run(cfg, tr, es) && k < |tr|
    ensures ExpiryInv(tr[k])
  {
    if k > 0 {
      RunExpiry(cfg, tr, es, k - 1);
      var s, e := RunMoves(cfg, tr, es, k - 1);
      ExpiryKept(cfg, s, e);
    }
  }

  // From an empty database, after any run:
  //   lease expirations     = reclaimed leases + leases that ended their job
  //   attempts + the latter = completed + attempt failures + lease expirations
  //                           + cancelled while running + running
  lemma ExpiriesBalance(cfg: Config, tr: seq<Coord>, es: seq<Step>, k: nat)
    requires Run(cfg, tr, es) && k < |tr|
    ensures var db, h := tr[k].db, tr[k].hist;
            && T(db, LeaseExpirations) == h.reclaimed + h.exhausted
            && T(db, Attempts) + h.exhausted
               == T(db, Completed) + T(db, AttemptFailures) + T(db, LeaseExpirations)
                  + h.cancelledRunning + |RunningJobs(db)|
  {
    RunExpiry(cfg, tr, es, k);
    CountersBalance(cfg, tr, es, k);
  }
}
