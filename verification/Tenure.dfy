// What an attempt may rely on: until its lease runs out nobody else can take its job away, and
// the result it delivers is the one the job keeps.
module Tenure {
  import opened Base
  import opened Rows
  import opened Queue
  import opened Lifecycle
  import opened Bulk
  import opened Coordinator
  import opened Fencing
  import Outcomes

  // The row belongs to this token, at least until then.
  predicate Held(db: Db, id: nat, lease: Lease, until: Time) {
    id in db.jobs && db.jobs[id].status.Running? && db.jobs[id].lease == lease
    && db.jobs[id].leaseUntil.Some? && db.jobs[id].leaseUntil.value >= until
  }

  // The ways an attempt ends before its time: its own result, its own failure, or a cancellation.
  predicate Concludes(s: Coord, e: Step, id: nat) {
    || (e.CompleteJob? && e.id == id && CompleteAccepted(s.db, id, e.lease, e.now))
    || (e.FailJob? && e.id == id && FailAccepted(s.db, id, e.lease, e.now))
    || (e.CancelJob? && e.id == id)
  }

  predicate Accepts(db: Db, id: nat, lease: Lease, t: Time) {
    RenewAccepted(db, id, lease, t) && CompleteAccepted(db, id, lease, t) && FailAccepted(db, id, lease, t)
  }

  lemma HeldAccepts(db: Db, id: nat, lease: Lease, until: Time, t: Time)
    requires Held(db, id, lease, until) && t < until
    ensures Accepts(db, id, lease, t)
  {
  }

  // ----- one step -----

  lemma ReapHeld(db: Db, now: Time, ttl: nat, id: nat, lease: Lease, until: Time)
    requires Held(db, id, lease, until) && now < until
    ensures Held(Reap(db, now), id, lease, until)
    ensures db.jobs[id].finishedAt.None? ==> Held(Cleanup(db, now, ttl), id, lease, until)
  {
    ReapRows(db, now);
  }

  lemma ReconcileHeld(db: Db, clock: Time, id: nat, lease: Lease, until: Time)
    requires Held(db, id, lease, until)
    requires forall m :: m in db.outbox ==> m < db.nextId
    ensures Held(Reconcile(db, clock), id, lease, until)
  {
    ReconcileRows(db, clock);
  }

  lemma BulkHeld(cfg: Config, s: Coord, e: Step, id: nat, lease: Lease, until: Time)
    requires ValidConfig(cfg) && Inv(cfg, s) && Enabled(cfg, s, e) && !SingleRow(e)
    requires Held(s.db, id, lease, until) && s.clock < until
    ensures Held(Apply(cfg, s, e).db, id, lease, until)
  {
    match e {
      case ClaimReap => ReapHeld(s.db, s.lock.now, cfg.jobTtl, id, lease, until);
      case CleanUp(now) =>
        assert RowInv(cfg, s.clock, s.db.nextId, s.db.jobs[id]);
        ReapHeld(s.db, now, cfg.jobTtl, id, lease, until);
      case ReconcileAll => ReconcileHeld(s.db, s.clock, id, lease, until);
    }
  }

  lemma StartHeld(cfg: Config, s: Coord, e: Step, id: nat, lease: Lease, until: Time)
    requires ValidConfig(cfg) && Inv(cfg, s) && Enabled(cfg, s, e) && Starting(e)
    requires Held(s.db, id, lease, until) && s.clock < until
    ensures Held(Apply(cfg, s, e).db, id, lease, until)
  {
  }

  lemma AttemptHeld(cfg: Config, s: Coord, e: Step, id: nat, lease: Lease, until: Time)
    requires ValidConfig(cfg) && Inv(cfg, s) && Enabled(cfg, s, e) && Attempt(e) && !Concludes(s, e, id)
    requires Held(s.db, id, lease, until) && s.clock < until <= s.clock + cfg.leaseSeconds * SECOND
    ensures Held(Apply(cfg, s, e).db, id, lease, until)
  {
  }

  lemma FailHeld(cfg: Config, s: Coord, e: Step, id: nat, lease: Lease, until: Time)
    requires ValidConfig(cfg) && Inv(cfg, s) && Enabled(cfg, s, e) && Failing(e) && !Concludes(s, e, id)
    requires Held(s.db, id, lease, until)
    ensures Held(Apply(cfg, s, e).db, id, lease, until)
  {
    var owner := if e.FailJob? then e.lease else NoLease;
    assert RowInv(cfg, s.clock, s.db.nextId, s.db.jobs[id]);
    if FailAccepted(s.db, e.id, owner, e.now) {
      assert e.id != id;
    }
  }

  lemma StepHeld(cfg: Config, s: Coord, e: Step, id: nat, lease: Lease, until: Time)
    requires ValidConfig(cfg) && Inv(cfg, s) && Enabled(cfg, s, e) && !Concludes(s, e, id)
    requires Held(s.db, id, lease, until) && s.clock < until <= s.clock + cfg.leaseSeconds * SECOND
    ensures Held(Apply(cfg, s, e).db, id, lease, until)
  {
    if !SingleRow(e) {
      BulkHeld(cfg, s, e, id, lease, until);
    } else if Starting(e) {
      StartHeld(cfg, s, e, id, lease, until);
    } else if Attempt(e) {
      AttemptHeld(cfg, s, e, id, lease, until);
    } else if Failing(e) {
      FailHeld(cfg, s, e, id, lease, until);
    } else if !TouchesJobs(e) {
      OtherRows(cfg, s, e);
    }
  }

  // ----- runs -----

  lemma MoveHeld(cfg: Config, tr: seq<Coord>, es: seq<Step>, k: nat, id: nat, lease: Lease, until: Time)
    requires Run(cfg, tr, es) && k < |es| && !Concludes(tr[k], es[k], id)
    requires Held(tr[k].db, id, lease, until) && tr[k].clock < until <= tr[k].clock + cfg.leaseSeconds * SECOND
    ensures Held(tr[k + 1].db, id, lease, until)
  {
    var s, e := RunMoves(cfg, tr, es, k);
    StepHeld(cfg, s, e, id, lease, until);
  }

  ghost predicate Undisturbed(tr: seq<Coord>, es: seq<Step>, i: nat, k: nat, id: nat)
    requires k <= |tr| && k <= |es|
  {
    forall n :: i <= n < k ==> !Concludes(tr[n], es[n], id)
  }

  lemma RunHeld(cfg: Config, tr: seq<Coord>, es: seq<Step>, i: nat, k: nat, id: nat, lease: Lease, until: Time)
    requires Run(cfg, tr, es) && i <= k < |tr| && Undisturbed(tr, es, i, k, id)
    requires Held(tr[i].db, id, lease, until)
    requires tr[k].clock < until <= tr[i].clock + cfg.leaseSeconds * SECOND
    ensures Held(tr[k].db, id, lease, until)
  {
    var held := seq(|tr|, j requires 0 <= j < |tr| => Held(tr[j].db, id, lease, until));
    forall j | i <= j < k && held[j]
      ensures held[j + 1]
    {
      ForwardRun(cfg, tr, es, i, j);
      ForwardRun(cfg, tr, es, j, k);
      MoveHeld(cfg, tr, es, j, id, lease, until);
    }
    StaysTrue(held, i, k);
  }

  // A start at clock c grants the job to a fresh token until c + lease_seconds: in every later
  // state before that time heartbeat, complete and fail accept it, unless the attempt itself
  // delivered its outcome or the job was cancelled. No reclaim, reaping, cleanup or reconcile
  // comes between.
  lemma StartGrants(cfg: Config, tr: seq<Coord>, es: seq<Step>, i: nat, k: nat, id: nat, t: Time)
    requires Run(cfg, tr, es) && i < k < |tr| && StartsJob(tr[i], es[i], id)
    requires tr[k].clock < tr[i].clock + cfg.leaseSeconds * SECOND
    requires t < tr[i].clock + cfg.leaseSeconds * SECOND
    requires Undisturbed(tr, es, i + 1, k, id)
    ensures var tokens := Issued(tr[k], id);
            tokens != [] && tokens[|tokens| - 1] !in Issued(tr[i], id)
            && Accepts(tr[k].db, id, tokens[|tokens| - 1], t)
  {
    var s, e := RunMoves(cfg, tr, es, i);
    var until := s.clock + cfg.leaseSeconds * SECOND;
    GrantHeld(cfg, s, e, id);
    var lease := tr[i + 1].db.jobs[id].lease;
    ForwardMove(cfg, tr, es, i);
    RunHeld(cfg, tr, es, i + 1, k, id, lease, until);
    RunTokens(cfg, tr, es, k, id);
    RunTokens(cfg, tr, es, i, id);
    HeldAccepts(tr[k].db, id, lease, until, t);
  }

  lemma GrantHeld(cfg: Config, s: Coord, e: Step, id: nat)
    requires ValidConfig(cfg) && Inv(cfg, s) && Enabled(cfg, s, e) && StartsJob(s, e, id)
    ensures var t := Apply(cfg, s, e);
            id in t.db.jobs && t.db.jobs[id].lease.Lease? && t.db.jobs[id].lease.serial >= s.db.nextId
            && Held(t.db, id, t.db.jobs[id].lease, s.clock + cfg.leaseSeconds * SECOND)
  {
  }

  // An accepted heartbeat at clock c extends that to c + lease_seconds.
  lemma RenewalGrants(cfg: Config, tr: seq<Coord>, es: seq<Step>, i: nat, k: nat, id: nat, t: Time)
    requires Run(cfg, tr, es) && i < k < |tr|
    requires es[i].Renew? && es[i].id == id && RenewAccepted(tr[i].db, id, es[i].lease, tr[i].clock)
    requires tr[k].clock < tr[i].clock + cfg.leaseSeconds * SECOND
    requires t < tr[i].clock + cfg.leaseSeconds * SECOND
    requires Undisturbed(tr, es, i + 1, k, id)
    ensures Accepts(tr[k].db, id, es[i].lease, t)
  {
    var s, e := RunMoves(cfg, tr, es, i);
    var until := s.clock + cfg.leaseSeconds * SECOND;
    Outcomes.RenewOutcome(cfg, s.db, id, e.lease, e.progress, s.clock);
    ForwardMove(cfg, tr, es, i);
    RunHeld(cfg, tr, es, i + 1, k, id, e.lease, until);
    HeldAccepts(tr[k].db, id, e.lease, until, t);
  }

  // ----- results -----

  // The row holds what this accepted Complete delivered.
  predicate Delivered(j: Job, e: Step) {
    e.CompleteJob? && j.status.Done? && j.text == e.text && j.segments == e.segments
    && j.resultPath == e.path && j.finishedAt == Some(e.now)
  }

  predicate Concluded(s: Coord, e: Step, id: nat) {
    e.CompleteJob? && e.id == id && CompleteAccepted(s.db, id, e.lease, e.now)
  }

  lemma DoneDelivered(cfg: Config, s: Coord, e: Step, id: nat)
    requires ValidConfig(cfg) && Inv(cfg, s) && Enabled(cfg, s, e)
    requires id in Apply(cfg, s, e).db.jobs && Apply(cfg, s, e).db.jobs[id].status.Done?
    requires !(id in s.db.jobs && s.db.jobs[id].status.Done?)
    ensures Concluded(s, e, id) && Delivered(Apply(cfg, s, e).db.jobs[id], e)
  {
    StepRows(cfg, s, e, id);
    DoneByComplete(cfg, s, e, id);
    CompleteDelivers(cfg, s, e, id);
  }

  // The result of a finished job is the delivered one: in every run, a Done row holds the text,
  // segments, path and time of an accepted Complete, and no other Complete was ever accepted for it.
  lemma {:induction false} ResultIsDelivered(cfg: Config, tr: seq<Coord>, es: seq<Step>, k: nat, id: nat)
    requires Run(cfg, tr, es) && k < |tr| && id in tr[k].db.jobs && tr[k].db.jobs[id].status.Done?
    ensures exists i :: 0 <= i < k && Concluded(tr[i], es[i], id) && Delivered(tr[k].db.jobs[id], es[i])
                        && forall n :: 0 <= n < |es| && Concluded(tr[n], es[n], id) ==> n == i
  {
    assert k > 0;
    var s, e := RunMoves(cfg, tr, es, k - 1);
    if id in s.db.jobs && s.db.jobs[id].status.Done? {
      ResultIsDelivered(cfg, tr, es, k - 1, id);
      OutcomeStep(cfg, tr, es, k - 1, id);
    } else {
      DoneDelivered(cfg, s, e, id);
      forall n | 0 <= n < |es| && Concluded(tr[n], es[n], id)
        ensures n == k - 1
      {
        OneResult(cfg, tr, es, k - 1, n, id);
      }
    }
  }

  lemma CompleteDelivers(cfg: Config, s: Coord, e: Step, id: nat)
    requires Enabled(cfg, s, e) && Concluded(s, e, id)
    ensures id in Apply(cfg, s, e).db.jobs && Delivered(Apply(cfg, s, e).db.jobs[id], e)
  {
    Outcomes.CompleteOutcome(s.db, id, e.lease, e.now, e.text, e.segments, e.path);
  }

  // And conversely an accepted Complete is not lost: its text is there until the row is deleted.
  lemma DeliveredIsKept(cfg: Config, tr: seq<Coord>, es: seq<Step>, i: nat, k: nat, id: nat)
    requires Run(cfg, tr, es) && i < k < |tr| && Concluded(tr[i], es[i], id) && id in tr[k].db.jobs
    ensures Delivered(tr[k].db.jobs[id], es[i])
  {
    var s, e := RunMoves(cfg, tr, es, i);
    CompleteDelivers(cfg, s, e, id);
    OutcomeKept(cfg, tr, es, i + 1, k, id);
  }
}
