// Bulk statements row by row: what reap, cleanup and reconcile do to each row.
module Bulk {
  import opened Base
  import opened Rows
  import opened Queue

  lemma {:induction false} ReapEachRows(db: Db, ids: set<nat>, now: Time)
    requires ids <= db.jobs.Keys
    ensures var d := ReapEach(db, ids, now);
            && d == db.(jobs := d.jobs, counters := d.counters)
            && d.jobs.Keys == db.jobs.Keys
            && (forall id :: id in db.jobs ==>
                 d.jobs[id] == if id in ids then ExhaustRow(db.jobs[id], now) else db.jobs[id])
    decreases |ids|
  {
    if ids != {} {
      var x := Least(ids);
      ReapEachRows(ExhaustJob(db, x, now), ids - {x}, now);
    }
  }

  // Reaping turns exactly the expired and exhausted attempts into failures, and nothing else.
  lemma ReapRows(db: Db, now: Time)
    ensures var d := Reap(db, now);
            && d == db.(jobs := d.jobs, counters := d.counters)
            && d.jobs.Keys == db.jobs.Keys
            && (forall id :: id in db.jobs ==>
                 d.jobs[id] == if MayReap(db.jobs[id], now) then ExhaustRow(db.jobs[id], now)
                               else db.jobs[id])
  {
    ReapEachRows(db, Reapable(db, now), now);
  }

  // Every adopted job has a message of its own in the outbox, with an identity drawn by this
  // statement; every other job and message is as before.
  predicate AdoptedJobs(db: Db, d: Db, ids: set<nat>) {
    && d == db.(jobs := d.jobs, outbox := d.outbox, nextId := d.nextId)
    && db.nextId <= d.nextId
    && d.jobs.Keys == db.jobs.Keys
    && (forall id :: id in db.jobs && id !in ids ==> d.jobs[id] == db.jobs[id])
    && (forall id :: id in d.jobs && id in ids ==>
         && d.jobs[id].dispatch.Some?
         && db.nextId <= d.jobs[id].dispatch.value < d.nextId
         && d.jobs[id] == db.jobs[id].(dispatch := d.jobs[id].dispatch))
  }

  predicate AdoptedMessages(db: Db, d: Db, ids: set<nat>) {
    && (forall id :: id in d.jobs && id in ids ==>
         && d.jobs[id].dispatch.Some? && d.jobs[id].dispatch.value in d.outbox
         && d.outbox[d.jobs[id].dispatch.value] == Outgoing(id, d.jobs[id].createdAt, None))
    && (forall m :: m in db.outbox ==> m in d.outbox && d.outbox[m] == db.outbox[m])
    && (forall m :: m in d.outbox && m !in db.outbox ==>
         db.nextId <= m < d.nextId && d.outbox[m].job in ids && d.outbox[m].publishedAt.None?)
  }

  lemma {:induction false} AdoptEachJobs(db: Db, ids: set<nat>)
    requires ids <= db.jobs.Keys
    ensures AdoptedJobs(db, AdoptEach(db, ids), ids)
    decreases |ids|
  {
    if ids != {} {
      var x := Least(ids);
      AdoptEachJobs(Adopt(db, x), ids - {x});
    }
  }

  lemma {:induction false} AdoptEachMessages(db: Db, ids: set<nat>)
    requires ids <= db.jobs.Keys
    requires forall m :: m in db.outbox ==> m < db.nextId
    ensures AdoptedMessages(db, AdoptEach(db, ids), ids)
    decreases |ids|
  {
    if ids != {} {
      var x := Least(ids);
      var mid := Adopt(db, x);
      AdoptEachMessages(mid, ids - {x});
      AdoptEachJobs(mid, ids - {x});
      var d := AdoptEach(mid, ids - {x});
      assert d.jobs[x] == mid.jobs[x];
      assert db.nextId in mid.outbox;
    }
  }

  // After reconcile no queued or running job is without a message.
  lemma ReconcileRows(db: Db, clock: Time)
    requires forall m :: m in db.outbox ==> m < db.nextId
    ensures var d := Reconcile(db, clock);
            && AdoptedJobs(Detach(db, clock), d, Orphans(Detach(db, clock)))
            && AdoptedMessages(Detach(db, clock), d, Orphans(Detach(db, clock)))
            && Orphans(d) == {}
  {
    var mid := Detach(db, clock);
    AdoptEachJobs(mid, Orphans(mid));
    AdoptEachMessages(mid, Orphans(mid));
    var d := Reconcile(db, clock);
    assert forall id :: id in d.jobs ==> !(Unfinished(d.jobs[id]) && d.jobs[id].dispatch.None?);
  }

  // The row every claim and every publication asks for exists whenever any row qualifies.

  lemma BeforeLeast(db: Db, x: nat, m: nat, o: nat)
    requires x in db.jobs && m in db.jobs && o in db.jobs && Before(db, m, o)
    ensures Before(db, if Before(db, x, m) then x else m, o)
  {
  }

  lemma {:induction false} First(db: Db, ids: set<nat>) returns (first: nat)
    requires ids != {} && ids <= db.jobs.Keys
    ensures first in ids && forall o :: o in ids ==> Before(db, first, o)
    decreases |ids|
  {
    var x :| x in ids;
    first := x;
    if ids != {x} {
      var m := First(db, ids - {x});
      first := if Before(db, x, m) then x else m;
      forall o | o in ids
        ensures Before(db, first, o)
      {
        if o != x {
          BeforeLeast(db, x, m, o);
        }
      }
    }
  }

  lemma CandidateExists(db: Db, locked: set<nat>, clock: Time)
    requires exists id :: id in db.jobs && id !in locked && Claimable(db.jobs[id], clock)
    ensures exists id :: id in db.jobs && IsCandidate(db, id, locked, clock)
  {
    var ids := set id | id in db.jobs && id !in locked && Claimable(db.jobs[id], clock);
    var some :| some in db.jobs && some !in locked && Claimable(db.jobs[some], clock);
    assert some in ids;
    var first := First(db, ids);
    assert IsCandidate(db, first, locked, clock);
  }

  lemma EarlierLeast(db: Db, x: nat, m: nat, o: nat)
    requires x in db.outbox && m in db.outbox && o in db.outbox && Earlier(db, m, o)
    ensures Earlier(db, if Earlier(db, x, m) then x else m, o)
  {
  }

  lemma {:induction false} Earliest(db: Db, ms: set<nat>) returns (first: nat)
    requires ms != {} && ms <= db.outbox.Keys
    ensures first in ms && forall o :: o in ms ==> Earlier(db, first, o)
    decreases |ms|
  {
    var x :| x in ms;
    first := x;
    if ms != {x} {
      var m := Earliest(db, ms - {x});
      first := if Earlier(db, x, m) then x else m;
      forall o | o in ms
        ensures Earlier(db, first, o)
      {
        if o != x {
          EarlierLeast(db, x, m, o);
        }
      }
    }
  }

  lemma NextExists(db: Db, locked: set<nat>, clock: Time)
    requires exists m :: m in db.outbox && Due(db, m, locked, clock)
    ensures exists m :: m in db.outbox && IsNext(db, m, locked, clock)
  {
    var ms := set m | m in db.outbox && Due(db, m, locked, clock);
    var some :| some in db.outbox && Due(db, some, locked, clock);
    assert some in ms;
    var first := Earliest(db, ms);
    assert IsNext(db, first, locked, clock);
  }
}
