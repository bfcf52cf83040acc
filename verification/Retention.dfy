// Retention over whole runs: what cleanup may delete, and how acknowledgements postpone it.
module Retention {
  import opened Base
  import opened Rows
  import opened Queue
  import opened Lifecycle
  import opened Bulk
  import opened Coordinator
  import opened Fencing

  // Why a row could be deleted.
  predicate PastRetention(cfg: Config, j: Job, clock: Time) {
    Terminal(j) && j.finishedAt.Some?
    && (if j.retain then j.acknowledgedAt.Some? && j.acknowledgedAt.value + cfg.jobTtl * SECOND < clock
        else j.finishedAt.value + cfg.jobTtl * SECOND < clock)
  }

  lemma DeletionStep(cfg: Config, s: Coord, e: Step, id: nat)
    requires ValidConfig(cfg) && Inv(cfg, s) && Enabled(cfg, s, e)
    requires id in s.db.jobs && id !in Apply(cfg, s, e).db.jobs
    ensures e.CleanUp? && PastRetention(cfg, s.db.jobs[id], s.clock)
  {
    StepRows(cfg, s, e, id);
    if !e.CleanUp? {
      OnlyCleanupDeletes(cfg, s, e, id);
    }
  }

  // A job that was there and is gone was deleted by a cleanup after it had finished, and if its
  // client asked to keep it, only a full retention time after the client's first Ack.
  lemma {:induction false} DeletedOnlyAfterRetention(cfg: Config, tr: seq<Coord>, es: seq<Step>,
                                                     i: nat, k: nat, id: nat) returns (n: nat)
    requires Run(cfg, tr, es) && i <= k < |tr|
    requires id in tr[i].db.jobs && id !in tr[k].db.jobs
    ensures i <= n < k && id in tr[n].db.jobs && id !in tr[n + 1].db.jobs
    ensures es[n].CleanUp? && PastRetention(cfg, tr[n].db.jobs[id], tr[n].clock)
    ensures forall m :: i <= m <= n && id in tr[m].db.jobs && tr[m].db.jobs[id].acknowledgedAt.Some? ==>
              tr[m].db.jobs[id].acknowledgedAt == tr[n].db.jobs[id].acknowledgedAt
    decreases k
  {
    if id !in tr[k - 1].db.jobs {
      n := DeletedOnlyAfterRetention(cfg, tr, es, i, k - 1, id);
    } else {
      n := k - 1;
      Coordinator.RunInv(cfg, tr, es, n);
      assert Enabled(cfg, tr[n], es[n]) && tr[n + 1] == Apply(cfg, tr[n], es[n]);
      DeletionStep(cfg, tr[n], es[n], id);
      forall m | i <= m <= n && id in tr[m].db.jobs && tr[m].db.jobs[id].acknowledgedAt.Some?
        ensures tr[m].db.jobs[id].acknowledgedAt == tr[n].db.jobs[id].acknowledgedAt
      {
        AckedIsTerminal(cfg, tr, es, m, id);
        OutcomeKept(cfg, tr, es, m, n, id);
      }
    }
  }

  lemma AckedIsTerminal(cfg: Config, tr: seq<Coord>, es: seq<Step>, m: nat, id: nat)
    requires Run(cfg, tr, es) && m < |tr| && id in tr[m].db.jobs
    ensures tr[m].db.jobs[id].acknowledgedAt.Some? ==> Terminal(tr[m].db.jobs[id])
    ensures tr[m].db.jobs[id].finishedAt.Some? <==> Terminal(tr[m].db.jobs[id])
  {
    Coordinator.RunInv(cfg, tr, es, m);
    assert RowInv(cfg, tr[m].clock, tr[m].db.nextId, tr[m].db.jobs[id]);
  }

  // An unacknowledged retained job survives any number of steps that are not its Ack.
  lemma {:induction false} RetainedUntilAck(cfg: Config, tr: seq<Coord>, es: seq<Step>,
                                            i: nat, k: nat, id: nat)
    requires Run(cfg, tr, es) && i <= k < |tr|
    requires id in tr[i].db.jobs && tr[i].db.jobs[id].retain && tr[i].db.jobs[id].acknowledgedAt.None?
    requires forall n :: i <= n < k ==> !(es[n].AckJob? && es[n].id == id)
    ensures id in tr[k].db.jobs && tr[k].db.jobs[id].retain && tr[k].db.jobs[id].acknowledgedAt.None?
  {
    if i < k {
      RetainedUntilAck(cfg, tr, es, i, k - 1, id);
      var s, e := tr[k - 1], es[k - 1];
      Coordinator.RunInv(cfg, tr, es, k - 1);
      StepRows(cfg, s, e, id);
      if id !in tr[k].db.jobs {
        DeletionStep(cfg, s, e, id);
      }
      UnackedStep(cfg, s, e, id);
    }
  }

  lemma UnackedStep(cfg: Config, s: Coord, e: Step, id: nat)
    requires ValidConfig(cfg) && Inv(cfg, s) && Enabled(cfg, s, e) && !(e.AckJob? && e.id == id)
    requires id in s.db.jobs && id in Apply(cfg, s, e).db.jobs && s.db.jobs[id].acknowledgedAt.None?
    ensures Apply(cfg, s, e).db.jobs[id].acknowledgedAt.None?
    ensures Apply(cfg, s, e).db.jobs[id].retain == s.db.jobs[id].retain
  {
    var t := Apply(cfg, s, e);
    StepRows(cfg, s, e, id);
    if s.db.jobs[id] != t.db.jobs[id] {
      var o, n, sc := s.db.jobs[id], t.db.jobs[id], ScopeOf(s, e, t, id);
      if Acknowledges(sc, o, n) {
        AckNeedsAck(cfg, s, e, id);
      } else {
        UnackedRow(cfg, sc, o, n);
      }
    }
  }

  lemma UnackedRow(cfg: Config, sc: Scope, o: Job, n: Job)
    requires RowUpdate(cfg, sc, o, n) && !Acknowledges(sc, o, n)
    ensures n.acknowledgedAt == o.acknowledgedAt && n.retain == o.retain
  {
    if Downloads(o, n) || Interrupts(o, n) || Queues(cfg, sc, o, n) {
    } else if Starts(cfg, sc, o, n) || Renews(cfg, sc, o, n) {
    } else if Completes(sc, o, n) || FailsForGood(sc, o, n) {
    } else if FailsAndRetries(cfg, sc, o, n) {
    } else if Cancels(sc, o, n) || Exhausts(sc, o, n) {
    } else {
      assert Redispatches(sc, o, n);
    }
  }

  lemma BulkSparesFinished(cfg: Config, s: Coord, e: Step, id: nat)
    requires ValidConfig(cfg) && Inv(cfg, s) && Enabled(cfg, s, e) && !(e.AckJob? && e.id == id)
    requires id in s.db.jobs && Terminal(s.db.jobs[id]) && id in Apply(cfg, s, e).db.jobs
    requires !SingleRow(e)
    ensures Apply(cfg, s, e).db.jobs[id] == s.db.jobs[id]
  {
    if e.ClaimReap? {
      ReapRows(s.db, s.lock.now);
    } else if e.CleanUp? {
      ReapRows(s.db, e.now);
    } else {
      ReconcileSparesFinished(s.db, s.clock, id);
    }
  }

  // A finished row changes only by its own Ack.
  lemma AckNeedsAck(cfg: Config, s: Coord, e: Step, id: nat)
    requires ValidConfig(cfg) && Inv(cfg, s) && Enabled(cfg, s, e) && !(e.AckJob? && e.id == id)
    requires id in s.db.jobs && Terminal(s.db.jobs[id]) && id in Apply(cfg, s, e).db.jobs
    ensures Apply(cfg, s, e).db.jobs[id] == s.db.jobs[id]
  {
    if !SingleRow(e) {
      BulkSparesFinished(cfg, s, e, id);
    } else if Failing(e) {
      FailSparesFinished(cfg, s, e, id);
    } else if Starting(e) {
      assert !StartsJob(s, e, id);
    } else if !TouchesJobs(e) {
      OtherRows(cfg, s, e);
    }
  }

  lemma ReconcileSparesFinished(db: Db, clock: Time, id: nat)
    requires id in db.jobs && Terminal(db.jobs[id])
    ensures id in Reconcile(db, clock).jobs && Reconcile(db, clock).jobs[id] == db.jobs[id]
  {
    var mid := Detach(db, clock);
    AdoptEachJobs(mid, Orphans(mid));
  }

  lemma FailSparesFinished(cfg: Config, s: Coord, e: Step, id: nat)
    requires Enabled(cfg, s, e) && Failing(e) && id in s.db.jobs && Terminal(s.db.jobs[id])
    ensures id in Apply(cfg, s, e).db.jobs && Apply(cfg, s, e).db.jobs[id] == s.db.jobs[id]
  {
  }

  // Once acknowledged, the job and its first acknowledgement stay for the whole retention time:
  // repeated Acks and everything else leave the deadline where it is.
  lemma {:induction false} KeptAfterAck(cfg: Config, tr: seq<Coord>, es: seq<Step>, i: nat, k: nat, id: nat)
    requires Run(cfg, tr, es) && i <= k < |tr|
    requires id in tr[i].db.jobs && tr[i].db.jobs[id].retain && tr[i].db.jobs[id].acknowledgedAt.Some?
    requires tr[k].clock <= tr[i].db.jobs[id].acknowledgedAt.value + cfg.jobTtl * SECOND
    ensures id in tr[k].db.jobs
    ensures tr[k].db.jobs[id].acknowledgedAt == tr[i].db.jobs[id].acknowledgedAt
  {
    if id !in tr[k].db.jobs {
      var n := DeletedOnlyAfterRetention(cfg, tr, es, i, k, id);
      AckedIsTerminal(cfg, tr, es, i, id);
      OutcomeKept(cfg, tr, es, i, n, id);
      ForwardRun(cfg, tr, es, n, k);
    } else {
      AckedIsTerminal(cfg, tr, es, i, id);
      OutcomeKept(cfg, tr, es, i, k, id);
    }
  }
}
