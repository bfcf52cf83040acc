// Attempts, tokens and results over whole runs: each attempt has a token of its own, only the
// newest token can write, and a finished job keeps its outcome.
module Fencing {
  import opened Base
  import opened Rows
  import opened Queue
  import opened Lifecycle
  import opened Bulk
  import opened Coordinator

  function Issued(s: Coord, id: nat): seq<Lease> {
    Get(s.hist.leases, id)
  }

  function Results(s: Coord, id: nat): seq<Lease> {
    Get(s.hist.completions, id)
  }

  predicate Increasing(ls: seq<Lease>, nextId: nat) {
    && (forall i :: 0 <= i < |ls| ==> ls[i].Lease? && ls[i].serial < nextId)
    && (forall i, j :: 0 <= i < j < |ls| ==> ls[i].serial < ls[j].serial)
  }

  predicate TokensInv(s: Coord, id: nat) {
    && Increasing(Issued(s, id), s.db.nextId)
    && (s.db.nextId <= id ==> Issued(s, id) == [])
    && (id in s.db.jobs ==>
         && |Issued(s, id)| == s.db.jobs[id].attempts
         && (s.db.jobs[id].status.Running? ==>
              Issued(s, id) != [] && s.db.jobs[id].lease == Issued(s, id)[|Issued(s, id)| - 1]))
  }

  predicate ResultsInv(s: Coord, id: nat) {
    && |Results(s, id)| <= 1
    && (s.db.nextId <= id ==> Results(s, id) == [])
    && (Results(s, id) != [] ==>
         && (id in s.db.jobs ==> s.db.jobs[id].status.Done?)
         && Issued(s, id) != [] && Results(s, id)[0] == Issued(s, id)[|Issued(s, id)| - 1])
    && (id in s.db.jobs && s.db.jobs[id].status.Done? ==> Results(s, id) != [])
  }

  // ----- one step -----

  predicate StartedNow(s: Coord, t: Coord, id: nat) {
    id in s.db.jobs && id in t.db.jobs && t.db.jobs[id].attempts > s.db.jobs[id].attempts
  }

  lemma IssueStep(cfg: Config, s: Coord, e: Step, id: nat)
    requires ValidConfig(cfg) && Inv(cfg, s) && Enabled(cfg, s, e)
    ensures var t := Apply(cfg, s, e);
            Issued(t, id) == Issued(s, id) + if StartedNow(s, t, id) then [t.db.jobs[id].lease] else []
  {
    var t := Apply(cfg, s, e);
    if !StartsJob(s, e, id) {
      assert Issued(t, id) == Issued(s, id);
      StepRows(cfg, s, e, id);
      NoStart(cfg, s, e, id);
    }
  }

  lemma NoStart(cfg: Config, s: Coord, e: Step, id: nat)
    requires ValidConfig(cfg) && Inv(cfg, s) && Enabled(cfg, s, e) && !StartsJob(s, e, id)
    ensures !StartedNow(s, Apply(cfg, s, e), id)
  {
    var t := Apply(cfg, s, e);
    StepRows(cfg, s, e, id);
    if id in s.db.jobs && id in t.db.jobs && s.db.jobs[id] != t.db.jobs[id] {
      var o, n, sc := s.db.jobs[id], t.db.jobs[id], ScopeOf(s, e, t, id);
      OnlyStartsIssue(cfg, sc, o, n);
    }
  }

  lemma TokensKept(cfg: Config, s: Coord, e: Step, id: nat)
    requires ValidConfig(cfg) && Inv(cfg, s) && Enabled(cfg, s, e) && TokensInv(s, id)
    ensures TokensInv(Apply(cfg, s, e), id)
  {
    var t := Apply(cfg, s, e);
    StepRows(cfg, s, e, id);
    IssueStep(cfg, s, e, id);
    if id in s.db.jobs && id in t.db.jobs && s.db.jobs[id] != t.db.jobs[id] {
      var o, n, sc := s.db.jobs[id], t.db.jobs[id], ScopeOf(s, e, t, id);
      if !Starts(cfg, sc, o, n) {
        OnlyStartsIssue(cfg, sc, o, n);
      }
    }
  }

  lemma ResultStep(cfg: Config, s: Coord, e: Step, id: nat)
    requires ValidConfig(cfg) && Inv(cfg, s) && Enabled(cfg, s, e)
    ensures var t := Apply(cfg, s, e);
            Results(t, id) == Results(s, id) +
            if e.CompleteJob? && e.id == id && CompleteAccepted(s.db, id, e.lease, e.now) then [e.lease] else []
  {
  }

  lemma DoneByComplete(cfg: Config, s: Coord, e: Step, id: nat)
    requires ValidConfig(cfg) && Inv(cfg, s) && Enabled(cfg, s, e)
    requires id in s.db.jobs && !s.db.jobs[id].status.Done?
    requires id in Apply(cfg, s, e).db.jobs && Apply(cfg, s, e).db.jobs[id].status.Done?
    ensures e.CompleteJob? && e.id == id && CompleteAccepted(s.db, id, e.lease, e.now)
  {
    if !SingleRow(e) {
      BulkNeverCompletes(cfg, s, e, id);
    } else if Failing(e) {
      FailNeverCompletes(cfg, s, e, id);
    } else if !TouchesJobs(e) {
      OtherRows(cfg, s, e);
    }
  }

  lemma FailNeverCompletes(cfg: Config, s: Coord, e: Step, id: nat)
    requires Enabled(cfg, s, e) && Failing(e) && id in s.db.jobs && !s.db.jobs[id].status.Done?
    ensures id in Apply(cfg, s, e).db.jobs && !Apply(cfg, s, e).db.jobs[id].status.Done?
  {
  }

  lemma BulkNeverCompletes(cfg: Config, s: Coord, e: Step, id: nat)
    requires Enabled(cfg, s, e) && !SingleRow(e)
    requires id in s.db.jobs && !s.db.jobs[id].status.Done?
    ensures id in Apply(cfg, s, e).db.jobs ==> !Apply(cfg, s, e).db.jobs[id].status.Done?
  {
    if e.ClaimReap? {
      ReapRows(s.db, s.lock.now);
    } else if e.CleanUp? {
      CleanupNeverCompletes(s.db, e.now, cfg.jobTtl, id);
    } else {
      ReconcileKeepsStatus(s.db, s.clock, id);
    }
  }

  lemma CleanupNeverCompletes(db: Db, now: Time, ttl: nat, id: nat)
    requires id in db.jobs && !db.jobs[id].status.Done?
    ensures id in Cleanup(db, now, ttl).jobs ==> !Cleanup(db, now, ttl).jobs[id].status.Done?
  {
    ReapRows(db, now);
  }

  lemma ReconcileKeepsStatus(db: Db, clock: Time, id: nat)
    requires id in db.jobs
    ensures id in Reconcile(db, clock).jobs && Reconcile(db, clock).jobs[id].status == db.jobs[id].status
  {
    var mid := Detach(db, clock);
    AdoptEachJobs(mid, Orphans(mid));
    assert mid.jobs[id].status == db.jobs[id].status;
  }

  lemma ResultsKept(cfg: Config, s: Coord, e: Step, id: nat)
    requires ValidConfig(cfg) && Inv(cfg, s) && Enabled(cfg, s, e)
    requires TokensInv(s, id) && ResultsInv(s, id)
    ensures ResultsInv(Apply(cfg, s, e), id)
  {
    var t := Apply(cfg, s, e);
    StepRows(cfg, s, e, id);
    IssueStep(cfg, s, e, id);
    ResultStep(cfg, s, e, id);
    if id in s.db.jobs {
      if s.db.jobs[id].status.Done? && id in t.db.jobs {
        OutcomeFrozen(cfg, ScopeOf(s, e, t, id), id, s.db.jobs[id], t.db.jobs[id]);
      } else if id in t.db.jobs && t.db.jobs[id].status.Done? {
        DoneByComplete(cfg, s, e, id);
      }
    }
  }

  // ----- every run -----

  lemma {:induction false} RunTokens(cfg: Config, tr: seq<Coord>, es: seq<Step>, k: nat, id: nat)
    requires Run(cfg, tr, es) && k < |tr|
    ensures Inv(cfg, tr[k]) && TokensInv(tr[k], id) && ResultsInv(tr[k], id)
  {
    if k > 0 {
      RunTokens(cfg, tr, es, k - 1, id);
      InvKept(cfg, tr[k - 1], es[k - 1]);
      TokensKept(cfg, tr[k - 1], es[k - 1], id);
      ResultsKept(cfg, tr[k - 1], es[k - 1], id);
    }
  }

  // The attempt counter of a row is the number of distinct tokens ever issued for it, and
  // never passes its limit.
  lemma AttemptsAreTokens(cfg: Config, tr: seq<Coord>, es: seq<Step>, k: nat, id: nat)
    requires Run(cfg, tr, es) && k < |tr| && id in tr[k].db.jobs
    ensures var j, tokens := tr[k].db.jobs[id], Issued(tr[k], id);
            && j.attempts == |tokens| == |set i | 0 <= i < |tokens| :: tokens[i]|
            && j.attempts <= cfg.maxAttempts && (j.status.Queued? ==> j.attempts < cfg.maxAttempts)
  {
    RunTokens(cfg, tr, es, k, id);
    DistinctSize(Issued(tr[k], id), tr[k].db.nextId);
  }

  lemma {:induction false} DistinctSize(ls: seq<Lease>, nextId: nat)
    requires Increasing(ls, nextId)
    ensures |set i | 0 <= i < |ls| :: ls[i]| == |ls|
  {
    var all := set i | 0 <= i < |ls| :: ls[i];
    if ls == [] {
      assert all == {};
    } else {
      var rest := ls[..|ls| - 1];
      DistinctSize(rest, nextId);
      var some := set i | 0 <= i < |rest| :: rest[i];
      assert forall i :: 0 <= i < |rest| ==> rest[i] == ls[i];
      var last := ls[|ls| - 1];
      forall x | x in all
        ensures x in some + {last}
      {
        var i :| 0 <= i < |ls| && ls[i] == x;
        if i < |rest| {
          assert rest[i] == x;
        }
      }
      forall x | x in some
        ensures x in all && x != last
      {
        var i :| 0 <= i < |rest| && rest[i] == x;
        assert ls[i] == x;
      }
      assert all == some + {last};
    }
  }

  // At most one Complete is ever accepted for a job, and its token is the newest one.
  lemma OneResult(cfg: Config, tr: seq<Coord>, es: seq<Step>, i: nat, k: nat, id: nat)
    requires Run(cfg, tr, es) && i < |es| && k < |es|
    requires es[i].CompleteJob? && es[i].id == id && CompleteAccepted(tr[i].db, id, es[i].lease, es[i].now)
    requires es[k].CompleteJob? && es[k].id == id && CompleteAccepted(tr[k].db, id, es[k].lease, es[k].now)
    ensures i == k
    ensures Issued(tr[i], id) != [] && es[i].lease == Issued(tr[i], id)[|Issued(tr[i], id)| - 1]
  {
    RunTokens(cfg, tr, es, i, id);
    if i <= k {
      OneResultOrdered(cfg, tr, es, i, k, id);
    } else {
      OneResultOrdered(cfg, tr, es, k, i, id);
    }
  }

  lemma OneResultOrdered(cfg: Config, tr: seq<Coord>, es: seq<Step>, i: nat, k: nat, id: nat)
    requires Run(cfg, tr, es) && i <= k < |es|
    requires es[i].CompleteJob? && es[i].id == id && CompleteAccepted(tr[i].db, id, es[i].lease, es[i].now)
    requires es[k].CompleteJob? && es[k].id == id && CompleteAccepted(tr[k].db, id, es[k].lease, es[k].now)
    ensures i == k
  {
    if i < k {
      RunTokens(cfg, tr, es, i, id);
      RunTokens(cfg, tr, es, k, id);
      ResultStep(cfg, tr[i], es[i], id);
      ResultsGrow(cfg, tr, es, i + 1, k, id);
      assert false;
    }
  }

  lemma ResultsMove(cfg: Config, tr: seq<Coord>, es: seq<Step>, k: nat, id: nat)
    requires Run(cfg, tr, es) && k < |es|
    ensures Results(tr[k], id) <= Results(tr[k + 1], id)
  {
    var s, e := RunMoves(cfg, tr, es, k);
    ResultStep(cfg, s, e, id);
  }

  lemma ResultsGrow(cfg: Config, tr: seq<Coord>, es: seq<Step>, i: nat, k: nat, id: nat)
    requires Run(cfg, tr, es) && i <= k < |tr|
    ensures Results(tr[i], id) <= Results(tr[k], id)
  {
    var all := seq(|tr|, j requires 0 <= j < |tr| => Results(tr[j], id));
    forall j | 0 < j < |tr|
      ensures all[j - 1] <= all[j]
    {
      ResultsMove(cfg, tr, es, j - 1, id);
    }
    PrefixChain(all, i, k);
  }

  lemma IssuedMove(cfg: Config, tr: seq<Coord>, es: seq<Step>, k: nat, id: nat)
    requires Run(cfg, tr, es) && k < |es|
    ensures Issued(tr[k], id) <= Issued(tr[k + 1], id)
  {
    var s, e := RunMoves(cfg, tr, es, k);
    IssueStep(cfg, s, e, id);
  }

  lemma IssuedGrow(cfg: Config, tr: seq<Coord>, es: seq<Step>, i: nat, k: nat, id: nat)
    requires Run(cfg, tr, es) && i <= k < |tr|
    ensures Issued(tr[i], id) <= Issued(tr[k], id)
  {
    var all := seq(|tr|, j requires 0 <= j < |tr| => Issued(tr[j], id));
    forall j | 0 < j < |tr|
      ensures all[j - 1] <= all[j]
    {
      IssuedMove(cfg, tr, es, j - 1, id);
    }
    PrefixChain(all, i, k);
  }

  // Once a newer attempt has started, every older token is refused forever by heartbeat,
  // complete and fail, whatever time their transactions started.
  lemma OldTokensRefused(cfg: Config, tr: seq<Coord>, es: seq<Step>, i: nat, k: nat, id: nat,
                         n: nat, time: Time)
    requires Run(cfg, tr, es) && i <= k < |tr| && n + 1 < |Issued(tr[i], id)|
    ensures var stale := Issued(tr[i], id)[n];
            && !RenewAccepted(tr[k].db, id, stale, time)
            && !CompleteAccepted(tr[k].db, id, stale, time)
            && !FailAccepted(tr[k].db, id, stale, time)
  {
    IssuedGrow(cfg, tr, es, i, k, id);
    RunTokens(cfg, tr, es, k, id);
    var tokens := Issued(tr[k], id);
    assert tokens[n] == Issued(tr[i], id)[n];
    assert tokens[n].serial < tokens[|tokens| - 1].serial;
  }

  // A deleted job never comes back.
  lemma {:induction false} GoneForGood(cfg: Config, tr: seq<Coord>, es: seq<Step>, i: nat, k: nat, id: nat)
    requires Run(cfg, tr, es) && i <= k < |tr|
    requires id !in tr[i].db.jobs && id < tr[i].db.nextId
    ensures id !in tr[k].db.jobs && id < tr[k].db.nextId
  {
    if i < k {
      GoneForGood(cfg, tr, es, i, k - 1, id);
      Coordinator.RunInv(cfg, tr, es, k - 1);
      StepRows(cfg, tr[k - 1], es[k - 1], id);
    }
  }

  lemma StaysKnown(cfg: Config, tr: seq<Coord>, es: seq<Step>, i: nat, k: nat, id: nat)
    requires Run(cfg, tr, es) && i <= k < |tr| && id in tr[i].db.jobs && id in tr[k].db.jobs
    ensures forall m :: i <= m <= k ==> id in tr[m].db.jobs
  {
    forall m | i <= m <= k
      ensures id in tr[m].db.jobs
    {
      if id !in tr[m].db.jobs {
        Coordinator.RunInv(cfg, tr, es, i);
        ForwardRun(cfg, tr, es, i, m);
        GoneForGood(cfg, tr, es, m, k, id);
      }
    }
  }

  lemma ForwardMove(cfg: Config, tr: seq<Coord>, es: seq<Step>, k: nat)
    requires Run(cfg, tr, es) && k < |es|
    ensures tr[k].db.nextId <= tr[k + 1].db.nextId && tr[k].clock <= tr[k + 1].clock
  {
    var s, e := RunMoves(cfg, tr, es, k);
    Forward(cfg, s, e);
  }

  lemma ForwardRun(cfg: Config, tr: seq<Coord>, es: seq<Step>, i: nat, k: nat)
    requires Run(cfg, tr, es) && i <= k < |tr|
    ensures tr[i].db.nextId <= tr[k].db.nextId && tr[i].clock <= tr[k].clock
  {
    var ids := seq(|tr|, j requires 0 <= j < |tr| => tr[j].db.nextId);
    var clocks := seq(|tr|, j requires 0 <= j < |tr| => tr[j].clock);
    forall j | 0 < j < |tr|
      ensures ids[j - 1] <= ids[j] && clocks[j - 1] <= clocks[j]
    {
      ForwardMove(cfg, tr, es, j - 1);
    }
    MonotoneChain(ids, i, k);
    MonotoneChain(clocks, i, k);
  }

  lemma OutcomeStep(cfg: Config, tr: seq<Coord>, es: seq<Step>, k: nat, id: nat)
    requires Run(cfg, tr, es) && k < |es| && id in tr[k].db.jobs && id in tr[k + 1].db.jobs
    ensures Freezes(Row(tr[k].db, id), Row(tr[k + 1].db, id))
  {
    if Terminal(tr[k].db.jobs[id]) {
      var s, e := RunMoves(cfg, tr, es, k);
      StepRows(cfg, s, e, id);
      OutcomeFrozen(cfg, ScopeOf(s, e, tr[k + 1], id), id, s.db.jobs[id], tr[k + 1].db.jobs[id]);
    }
  }

  // A finished job keeps status, text, segments, error and first acknowledgement until it is
  // deleted, however many writes arrive late.
  lemma OutcomeKept(cfg: Config, tr: seq<Coord>, es: seq<Step>, i: nat, k: nat, id: nat)
    requires Run(cfg, tr, es) && i <= k < |tr|
    requires id in tr[i].db.jobs && id in tr[k].db.jobs && Terminal(tr[i].db.jobs[id])
    ensures Terminal(tr[k].db.jobs[id]) && SameOutcome(tr[i].db.jobs[id], tr[k].db.jobs[id])
  {
    StaysKnown(cfg, tr, es, i, k, id);
    var rows := seq(|tr|, j requires 0 <= j < |tr| => Row(tr[j].db, id));
    forall j | i < j <= k
      ensures Freezes(rows[j - 1], rows[j])
    {
      OutcomeStep(cfg, tr, es, j - 1, id);
    }
    FrozenChain(rows, i, k);
  }

  // ----- a linear bound on the lifecycle -----

  predicate ChangesAt(tr: seq<Coord>, id: nat, i: nat)
    requires i + 1 < |tr|
  {
    id in tr[i].db.jobs && id in tr[i + 1].db.jobs
    && !SameLifecycle(tr[i].db.jobs[id], tr[i + 1].db.jobs[id])
  }

  // How many of the first k steps changed the status or the attempts of a job.
  function Changes(tr: seq<Coord>, id: nat, k: nat): nat
    requires k < |tr|
  {
    if k == 0 then 0 else Changes(tr, id, k - 1) + if ChangesAt(tr, id, k - 1) then 1 else 0
  }

  lemma {:induction false} RankBudget(cfg: Config, tr: seq<Coord>, es: seq<Step>, k: nat, id: nat)
    requires Run(cfg, tr, es) && k < |tr|
    ensures Inv(cfg, tr[k])
    ensures tr[k].db.nextId <= id ==> Changes(tr, id, k) == 0
    ensures id in tr[k].db.jobs ==> Changes(tr, id, k) + Rank(tr[k].db.jobs[id]) <= 2 * cfg.maxAttempts + 3
    ensures Changes(tr, id, k) <= 2 * cfg.maxAttempts + 3
  {
    if k > 0 {
      RankBudget(cfg, tr, es, k - 1, id);
      var s, e, t := tr[k - 1], es[k - 1], tr[k];
      InvKept(cfg, s, e);
      StepRows(cfg, s, e, id);
      if id in s.db.jobs && id in t.db.jobs {
        RankDecreases(cfg, ScopeOf(s, e, t, id), id, s.db.jobs[id], t.db.jobs[id]);
      }
    }
  }

  // Lifecycles end: no run, however long and however hostile its clients, changes the status
  // or the attempts of one job more than 2 * max_attempts + 3 times.
  lemma LifecycleBound(cfg: Config, tr: seq<Coord>, es: seq<Step>, id: nat)
    requires Run(cfg, tr, es)
    ensures Changes(tr, id, |es|) <= 2 * cfg.maxAttempts + 3
  {
    RankBudget(cfg, tr, es, |es|, id);
  }
}
