// Enforced backoff in RabbitMQ mode: after an accepted retryable failure no attempt of the job
// starts before its delay is over, although copies of older messages may still circulate.
module Backoff {
  import opened Base
  import opened Rows
  import opened Queue
  import opened Lifecycle
  import opened Bulk
  import opened Coordinator
  import opened Protocol
  import opened Delivery
  import Outcomes

  // The outbox has let this message out, or does not know it.
  predicate LetOut(c: Coord, message: nat) {
    message < c.db.nextId
    && (message in c.db.outbox ==> c.db.outbox[message].availableAt <= c.clock)
  }

  // Whatever circulates has been let out.
  predicate DueInv(s: Sys) {
    && (forall k :: k in s.copies ==> LetOut(s.c, s.copies[k].message))
    && (forall r :: r in s.requests ==> LetOut(s.c, r.message))
    && (s.c.lock.BeginRow? || s.c.lock.BeginReady? ==> LetOut(s.c, s.c.lock.r.message))
  }

  lemma LetOutStays(cfg: Config, c: Coord, e: Step, message: nat)
    requires ValidConfig(cfg) && Inv(cfg, c) && Enabled(cfg, c, e) && LetOut(c, message)
    ensures LetOut(Apply(cfg, c, e), message)
  {
    StepOutbox(cfg, c, e, 0, message);
    Forward(cfg, c, e);
  }

  lemma ServeDue(cfg: Config, s: Sys, e: Step)
    requires ValidConfig(cfg) && cfg.rabbit && SysInv(cfg, s) && CanMove(cfg, s, Serve(e)) && DueInv(s)
    ensures DueInv(Do(cfg, s, Serve(e)))
  {
    var t := Do(cfg, s, Serve(e));
    forall m | LetOut(s.c, m)
      ensures LetOut(t.c, m)
    {
      LetOutStays(cfg, s.c, e, m);
    }
    LockedRequest(cfg, s, e);
  }

  lemma CopyDue(cfg: Config, s: Sys, mv: Move, k: nat)
    requires SysInv(cfg, s) && CanMove(cfg, s, mv) && DueInv(s) && !mv.Serve? && k in Do(cfg, s, mv).copies
    ensures LetOut(s.c, Do(cfg, s, mv).copies[k].message)
  {
  }

  lemma RequestDue(cfg: Config, s: Sys, mv: Move, r: BeginRequest)
    requires SysInv(cfg, s) && CanMove(cfg, s, mv) && DueInv(s) && !mv.Serve? && r in Do(cfg, s, mv).requests
    ensures LetOut(s.c, r.message)
  {
  }

  lemma DueKept(cfg: Config, s: Sys, mv: Move)
    requires ValidConfig(cfg) && cfg.rabbit && SysInv(cfg, s) && CanMove(cfg, s, mv) && DueInv(s)
    ensures DueInv(Do(cfg, s, mv))
  {
    if mv.Serve? {
      ServeDue(cfg, s, mv.e);
    } else {
      var t := Do(cfg, s, mv);
      forall k | k in t.copies
        ensures LetOut(t.c, t.copies[k].message)
      {
        CopyDue(cfg, s, mv, k);
      }
      forall r | r in t.requests
        ensures LetOut(t.c, r.message)
      {
        RequestDue(cfg, s, mv, r);
      }
    }
  }

  lemma {:induction false} RunDue(cfg: Config, tr: seq<Sys>, ms: seq<Move>, k: nat)
    requires SysRun(cfg, tr, ms) && k < |tr|
    ensures SysInv(cfg, tr[k]) && DueInv(tr[k])
  {
    if k > 0 {
      RunDue(cfg, tr, ms, k - 1);
      MoveKeeps(cfg, tr[k - 1], ms[k - 1]);
      DueKept(cfg, tr[k - 1], ms[k - 1]);
    }
  }

  // Either the delay is over, or the job waits for a message the outbox holds back that long,
  // or it will never run again.
  predicate HeldBack(c: Coord, id: nat, until: Time) {
    id < c.db.nextId
    && (c.clock >= until
        || id !in c.db.jobs
        || Terminal(c.db.jobs[id])
        || (c.db.jobs[id].status.Queued? && c.db.jobs[id].dispatch.Some?
            && c.db.jobs[id].dispatch.value in c.db.outbox
            && c.db.outbox[c.db.jobs[id].dispatch.value].availableAt >= until))
  }

  lemma HeldRow(cfg: Config, sc: Scope, o: Job, n: Job)
    requires RowUpdate(cfg, sc, o, n) && o.status.Queued? && !sc.starts
    ensures Terminal(n) || n == o || Redispatches(sc, o, n)
  {
  }

  lemma HeldStep(cfg: Config, c: Coord, e: Step, id: nat, until: Time)
    requires ValidConfig(cfg) && cfg.rabbit && Inv(cfg, c) && Enabled(cfg, c, e)
    requires HeldBack(c, id, until) && !e.ReconcileAll? && (StartsJob(c, e, id) ==> c.clock >= until)
    ensures HeldBack(Apply(cfg, c, e), id, until)
  {
    var t := Apply(cfg, c, e);
    Forward(cfg, c, e);
    StepRows(cfg, c, e, id);
    if c.clock < until && id in c.db.jobs && id in t.db.jobs {
      var o, n, sc := c.db.jobs[id], t.db.jobs[id], ScopeOf(c, e, t, id);
      if Terminal(o) {
        OutcomeFrozen(cfg, sc, id, o, n);
      } else {
        var m := o.dispatch.value;
        InvKept(cfg, c, e);
        StepOutbox(cfg, c, e, id, m);
        if o != n {
          HeldRow(cfg, sc, o, n);
          if !Terminal(n) {
            NoRedispatch(cfg, c, e, id);
          }
        }
      }
    }
  }

  // Outside reconcile a queued job keeps its message until an attempt starts.
  lemma NoRedispatch(cfg: Config, c: Coord, e: Step, id: nat)
    requires ValidConfig(cfg) && cfg.rabbit && Inv(cfg, c) && Enabled(cfg, c, e) && !e.ReconcileAll?
    requires id in c.db.jobs && c.db.jobs[id].status.Queued? && !StartsJob(c, e, id)
    requires id in Apply(cfg, c, e).db.jobs && !Terminal(Apply(cfg, c, e).db.jobs[id])
    ensures Apply(cfg, c, e).db.jobs[id].dispatch == c.db.jobs[id].dispatch
  {
    if e.CleanUp? {
      ReapRows(c.db, e.now);
    } else if Ingress(e) || Failing(e) {
      UploadsAndFailuresSpareQueued(cfg, c, e, id);
    } else {
      QuietOutbox(cfg, c, e, id, 0);
    }
  }

  lemma UploadsAndFailuresSpareQueued(cfg: Config, c: Coord, e: Step, id: nat)
    requires Enabled(cfg, c, e) && (Ingress(e) || Failing(e))
    requires id in c.db.jobs && id < c.db.nextId && c.db.jobs[id].status.Queued?
    ensures id in Apply(cfg, c, e).db.jobs && Apply(cfg, c, e).db.jobs[id] == c.db.jobs[id]
  {
  }

  // A start needs a message that has been let out.
  lemma StartNeedsDue(cfg: Config, s: Sys, e: Step, id: nat, until: Time)
    requires ValidConfig(cfg) && cfg.rabbit && SysInv(cfg, s) && DueInv(s) && CanMove(cfg, s, Serve(e))
    requires StartsJob(s.c, e, id) && HeldBack(s.c, id, until)
    ensures s.c.clock >= until
  {
    assert LockInv(cfg, s.c);
    assert s.c.lock.BeginReady? && s.c.lock.r.job == id;
    assert s.c.db.jobs[id].dispatch == Some(s.c.lock.r.message);
    assert LetOut(s.c, s.c.lock.r.message);
  }

  lemma HeldMove(cfg: Config, s: Sys, mv: Move, id: nat, until: Time)
    requires ValidConfig(cfg) && cfg.rabbit && SysInv(cfg, s) && DueInv(s) && CanMove(cfg, s, mv)
    requires HeldBack(s.c, id, until) && mv != Serve(ReconcileAll)
    ensures HeldBack(Do(cfg, s, mv).c, id, until)
  {
    if mv.Serve? {
      if StartsJob(s.c, mv.e, id) {
        StartNeedsDue(cfg, s, mv.e, id, until);
      }
      HeldStep(cfg, s.c, mv.e, id, until);
    }
  }

  lemma {:induction false} HeldRun(cfg: Config, tr: seq<Sys>, ms: seq<Move>, i: nat, k: nat, id: nat, until: Time)
    requires SysRun(cfg, tr, ms) && i <= k < |tr| && HeldBack(tr[i].c, id, until)
    requires forall n :: i <= n < k ==> ms[n] != Serve(ReconcileAll)
    ensures HeldBack(tr[k].c, id, until)
  {
    if i < k {
      HeldRun(cfg, tr, ms, i, k - 1, id, until);
      RunDue(cfg, tr, ms, k - 1);
      HeldMove(cfg, tr[k - 1], ms[k - 1], id, until);
    }
  }

  // The failure is accepted and leaves the job queued for another attempt.
  predicate RetryAccepted(s: Sys, mv: Move, id: nat) {
    mv.Serve? && mv.e.FailJob? && mv.e.id == id && mv.e.retryable
    && FailAccepted(s.c.db, id, mv.e.lease, mv.e.now)
    && s.c.db.jobs[id].attempts < s.c.db.jobs[id].maxAttempts
  }

  // An accepted failure ends the attempt in one of two ways: a retryable one with attempts left leaves
  // the job queued, with a message of its own waiting in the outbox until 2^min(a, 8) seconds are
  // over; every other leaves it failed.
  lemma FailureOutcome(cfg: Config, c: Coord, e: Step, id: nat)
    requires ValidConfig(cfg) && cfg.rabbit && Inv(cfg, c) && Enabled(cfg, c, e)
    requires e.FailJob? && e.id == id && FailAccepted(c.db, id, e.lease, e.now)
    ensures var o, d := c.db.jobs[id], Apply(cfg, c, e).db;
            id in d.jobs && d.jobs[id].attempts == o.attempts
            && if e.retryable && o.attempts < o.maxAttempts then
                 d.jobs[id].status.Queued? && d.jobs[id].finishedAt.None? && d.jobs[id].dispatch.Some?
                 && var m := d.jobs[id].dispatch.value;
                 c.db.nextId <= m && m in d.outbox
                 && d.outbox[m] == Outgoing(id, c.clock + Pow2(Min(o.attempts, 8)) * SECOND, None)
               else d.jobs[id].status.Failed? && d.jobs[id].finishedAt == Some(e.now)
  {
    Outcomes.FailOutcome(cfg, c.db, id, e.lease, e.now, c.clock, e.error, e.retryable);
  }

  lemma RetryHoldsBack(cfg: Config, s: Sys, mv: Move, id: nat)
    requires ValidConfig(cfg) && cfg.rabbit && SysInv(cfg, s) && CanMove(cfg, s, mv) && RetryAccepted(s, mv, id)
    ensures HeldBack(Do(cfg, s, mv).c, id, s.c.clock + RetryDelay(s.c.db.jobs[id].attempts) * SECOND)
  {
  }

  // Backoff is enforced: a retryable failure accepted at time t after a attempts, and any later
  // start of the same job, are at least 2^min(a, 8) seconds apart. Reconcile may not come
  // between; it republishes at once by design.
  lemma BackoffEnforced(cfg: Config, tr: seq<Sys>, ms: seq<Move>, i: nat, k: nat, id: nat)
    requires SysRun(cfg, tr, ms) && i < k < |ms|
    requires RetryAccepted(tr[i], ms[i], id)
    requires ms[k].Serve? && StartsJob(tr[k].c, ms[k].e, id)
    requires forall n :: i < n < k ==> ms[n] != Serve(ReconcileAll)
    ensures var a := tr[i].c.db.jobs[id].attempts;
            a >= 1 && tr[k].c.clock >= tr[i].c.clock + Pow2(Min(a, 8)) * SECOND
  {
    RunDue(cfg, tr, ms, i);
    RunDue(cfg, tr, ms, k);
    var a := tr[i].c.db.jobs[id].attempts;
    Outcomes.DelayIs(a);
    RetryHoldsBack(cfg, tr[i], ms[i], id);
    HeldRun(cfg, tr, ms, i + 1, k, id, tr[i].c.clock + RetryDelay(a) * SECOND);
    StartNeedsDue(cfg, tr[k], ms[k].e, id, tr[i].c.clock + RetryDelay(a) * SECOND);
  }
}
