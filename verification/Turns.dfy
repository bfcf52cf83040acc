// No job is ever stuck in SQL mode either: once the leases that are left have run out, a slot of any
// pool with capacity reports, claims the job, and delivers its result.
module Turns {
  import opened Base
  import opened Rows
  import opened Queue
  import opened Lifecycle
  import opened Bulk
  import opened Coordinator
  import Outcomes

  function Try(cfg: Config): (Coord, Step) -> Option<Coord> {
    (s: Coord, e: Step) => if Enabled(cfg, s, e) then Some(Apply(cfg, s, e)) else None
  }

  lemma GoOn(cfg: Config, tr: seq<Coord>, es: seq<Step>, e: Step) returns (tr': seq<Coord>, es': seq<Step>)
    requires Run(cfg, tr, es) && Enabled(cfg, tr[|es|], e)
    ensures Run(cfg, tr', es') && tr <= tr' && es <= es' && |es'| == |es| + 1
    ensures tr'[|es'|] == Apply(cfg, tr[|es|], e)
  {
    tr', es' := tr + [Apply(cfg, tr[|es|], e)], es + [e];
  }

  lemma {:induction false} RunOn(cfg: Config, tr: seq<Coord>, es: seq<Step>, more: seq<Step>, t: Coord)
    returns (tr': seq<Coord>, es': seq<Step>)
    requires Run(cfg, tr, es) && After(Try(cfg), tr[|es|], more) == Some(t)
    ensures Run(cfg, tr', es') && tr <= tr' && es <= es' && |es'| == |es| + |more|
    ensures tr'[|es'|] == t
    decreases |more|
  {
    tr', es' := tr, es;
    if more != [] {
      tr', es' := GoOn(cfg, tr, es, more[0]);
      tr', es' := RunOn(cfg, tr', es', more[1..], t);
    }
  }

  // ----- every lease and every report runs out -----

  predicate RunOut(db: Db, t: Time) {
    && (forall i :: i in db.jobs && db.jobs[i].leaseUntil.Some? ==> db.jobs[i].leaseUntil.value < t)
    && (forall s :: s in db.slots ==> db.slots[s].readyUntil <= t)
  }

  lemma RunOutEventually(db: Db, clock: Time) returns (t: Time)
    ensures clock <= t && RunOut(db, t)
  {
    var leases: set<int> := set i | i in db.jobs && db.jobs[i].leaseUntil.Some? :: db.jobs[i].leaseUntil.value;
    var reports: set<int> := set s | s in db.slots :: db.slots[s].readyUntil;
    var a := Bound(leases);
    var b := Bound(reports);
    t := clock + a + b + 1;
    assert forall i :: i in db.jobs && db.jobs[i].leaseUntil.Some? ==> db.jobs[i].leaseUntil.value in leases;
    assert forall s :: s in db.slots ==> db.slots[s].readyUntil in reports;
  }

  // Nobody works, and this slot alone is ready.
  predicate Alone(db: Db, slot: Slot, t: Time) {
    && (forall i :: i in db.jobs ==> !Executing(db.jobs[i], t))
    && slot in db.slots && db.slots[slot].readyUntil > t
    && (forall s :: s in db.slots && s != slot ==> db.slots[s].readyUntil <= t)
  }

  // The job can be claimed.
  predicate Open(db: Db, id: nat, t: Time) {
    id in db.jobs && Claimable(db.jobs[id], t)
  }

  lemma Arrive(cfg: Config, s: Coord, id: nat, slot: Slot) returns (es: seq<Step>, t: Coord)
    requires ValidConfig(cfg) && id in s.db.jobs && Unfinished(s.db.jobs[id])
    requires s.db.jobs[id].attempts < s.db.jobs[id].maxAttempts
    ensures |es| == 3 && After(Try(cfg), s, es) == Some(t)
    ensures t.lock.Free? && Alone(t.db, slot, t.clock) && Open(t.db, id, t.clock)
  {
    var until := RunOutEventually(s.db, s.clock);
    var u := Apply(cfg, s, Abandon);
    var v := Apply(cfg, u, Tick(until));
    var report := ReportSlot(slot, true, until);
    t := Apply(cfg, v, report);
    es := [Abandon, Tick(until)] + [report];
    Two(Try(cfg), s, Abandon, u, Tick(until));
    One(Try(cfg), v, report);
    Both(Try(cfg), s, [Abandon, Tick(until)], v, [report]);
  }

  // Reaping spares a job with attempts left.
  lemma Lock(cfg: Config, s: Coord, id: nat, slot: Slot) returns (es: seq<Step>, t: Coord)
    requires !cfg.rabbit && s.lock.Free? && Alone(s.db, slot, s.clock) && Open(s.db, id, s.clock)
    ensures |es| == 2 && After(Try(cfg), s, es) == Some(t)
    ensures t.lock == ClaimReaped(slot, s.clock) && t.clock == s.clock
    ensures Alone(t.db, slot, t.clock) && Open(t.db, id, t.clock)
  {
    var u := Apply(cfg, s, ClaimLock(slot, s.clock));
    ReapRows(s.db, s.clock);
    t := Apply(cfg, u, ClaimReap);
    es := [ClaimLock(slot, s.clock), ClaimReap];
    Two(Try(cfg), s, ClaimLock(slot, s.clock), u, ClaimReap);
  }

  lemma Chosen(cfg: Config, db: Db, slot: Slot, t: Time)
    requires ValidConfig(cfg) && Alone(db, slot, t) && Capacity(cfg, slot.worker) > 0
    ensures Selected(cfg, RequestWork(cfg, db, slot, t), slot, t)
  {
    var d := RequestWork(cfg, db, slot, t);
    assert Active(d, slot.worker, t) == {};
    assert Eligible(cfg, d, slot, t);
    assert forall s :: s in d.slots && s != slot ==> d.slots[s].readyUntil <= t;
  }

  lemma Ask(cfg: Config, s: Coord, id: nat, slot: Slot) returns (es: seq<Step>, t: Coord)
    requires ValidConfig(cfg) && s.lock == ClaimReaped(slot, s.clock) && Capacity(cfg, slot.worker) > 0
    requires Alone(s.db, slot, s.clock) && Open(s.db, id, s.clock)
    ensures |es| == 2 && After(Try(cfg), s, es) == Some(t)
    ensures t.lock == ClaimSelected(slot, s.clock) && t.clock == s.clock && Open(t.db, id, t.clock)
  {
    Chosen(cfg, s.db, slot, s.clock);
    var u := Apply(cfg, s, ClaimRequest);
    t := Apply(cfg, u, ClaimSelect);
    es := [ClaimRequest, ClaimSelect];
    Two(Try(cfg), s, ClaimRequest, u, ClaimSelect);
  }

  // The other rows may be with other transactions.
  lemma Work(cfg: Config, s: Coord, id: nat, slot: Slot, text: string, segments: string, path: string)
    returns (es: seq<Step>, t: Coord)
    requires ValidConfig(cfg) && s.lock == ClaimSelected(slot, s.clock) && Open(s.db, id, s.clock)
    ensures |es| == 2 && After(Try(cfg), s, es) == Some(t) && Outcomes.Stored(t.db, id, text, segments, path)
  {
    var take := ClaimTake(Some(id), s.db.jobs.Keys - {id});
    var u := Apply(cfg, s, take);
    Outcomes.TakenOutcome(cfg, s.db, id, slot, s.clock, s.clock);
    var lease := FreshLease(s.db, slot);
    var complete := CompleteJob(id, lease, s.clock, text, segments, path);
    Outcomes.CompleteOutcome(u.db, id, lease, s.clock, text, segments, path);
    t := Apply(cfg, u, complete);
    es := [take, complete];
    Two(Try(cfg), s, take, u, complete);
  }

  // No job is ever stuck: every run that leaves a job queued or running with attempts left has a
  // continuation of 9 steps, by any slot of any pool with capacity, that ends with the job done and
  // any given result stored.
  lemma EveryJobCanBeClaimed(cfg: Config, tr: seq<Coord>, es: seq<Step>, id: nat, slot: Slot,
                             text: string, segments: string, path: string)
    returns (tr': seq<Coord>, es': seq<Step>)
    requires Run(cfg, tr, es) && !cfg.rabbit && Capacity(cfg, slot.worker) > 0
    requires id in tr[|es|].db.jobs && Unfinished(tr[|es|].db.jobs[id])
    requires tr[|es|].db.jobs[id].attempts < cfg.maxAttempts
    ensures Run(cfg, tr', es') && tr <= tr' && es <= es' && |es'| == |es| + 9
    ensures Outcomes.Stored(tr'[|es'|].db, id, text, segments, path)
  {
    Coordinator.RunInv(cfg, tr, es, |es|);
    var s := tr[|es|];
    assert RowInv(cfg, s.clock, s.db.nextId, s.db.jobs[id]);
    var a, u := Arrive(cfg, s, id, slot);
    var b, v := Lock(cfg, u, id, slot);
    var c, w := Ask(cfg, v, id, slot);
    var d, t := Work(cfg, w, id, slot, text, segments, path);
    Both(Try(cfg), v, c, w, d);
    Both(Try(cfg), u, b, v, c + d);
    Both(Try(cfg), s, a, u, b + (c + d));
    tr', es' := RunOn(cfg, tr, es, a + (b + (c + d)), t);
  }
}
