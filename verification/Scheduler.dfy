// Pool capacity. Claims, begins and renewals serialize on the scheduler lock; while a holder
// sits between two of its statements the clock moves and every other transaction may run.
module Scheduler {
  import opened Base
  import opened Rows
  import opened Queue
  import opened Lifecycle
  import opened Coordinator

  // ----- live leases only come from starts -----

  lemma LeaseOrigin(cfg: Config, s: Coord, e: Step, id: nat)
    requires ValidConfig(cfg) && Inv(cfg, s) && Enabled(cfg, s, e) && !StartsJob(s, e, id)
    requires id in Apply(cfg, s, e).db.jobs
    requires Executing(Apply(cfg, s, e).db.jobs[id], Apply(cfg, s, e).clock)
    ensures id in s.db.jobs && Executing(s.db.jobs[id], s.clock)
    ensures Apply(cfg, s, e).db.jobs[id].slot == s.db.jobs[id].slot
  {
    var t := Apply(cfg, s, e);
    StepRows(cfg, s, e, id);
    if id in s.db.jobs && s.db.jobs[id] != t.db.jobs[id] {
      OnlyStartsOccupy(cfg, ScopeOf(s, e, t, id), s.db.jobs[id], t.db.jobs[id], t.clock);
    }
  }

  // ----- the invariant -----

  predicate OneLeasePerSlot(s: Coord) {
    forall a, b | a in s.db.jobs && b in s.db.jobs
      && Executing(s.db.jobs[a], s.clock) && Executing(s.db.jobs[b], s.clock)
      && s.db.jobs[a].slot == s.db.jobs[b].slot :: a == b
  }

  ghost predicate WithinCapacity(cfg: Config, s: Coord) {
    forall w :: |Active(s.db, w, s.clock)| <= Capacity(cfg, w)
  }

  predicate RoomFor(cfg: Config, s: Coord, slot: Slot) {
    !SlotBusy(s.db, slot, s.clock)
    && |Active(s.db, slot.worker, s.clock)| < Capacity(cfg, slot.worker)
  }

  // What a capacity test has found still holds when its transaction writes the lease.
  predicate RoomHeld(cfg: Config, s: Coord) {
    (s.lock.BeginReady? ==> RoomFor(cfg, s, s.lock.r.slot))
    && (s.lock.ClaimSelected? ==> RoomFor(cfg, s, s.lock.slot))
  }

  ghost predicate CapInv(cfg: Config, s: Coord) {
    OneLeasePerSlot(s) && WithinCapacity(cfg, s) && RoomHeld(cfg, s)
  }

  // ----- steps that start nothing -----

  lemma ActiveShrinks(cfg: Config, s: Coord, e: Step, w: string)
    requires ValidConfig(cfg) && Inv(cfg, s) && Enabled(cfg, s, e) && !Starting(e)
    ensures var t := Apply(cfg, s, e);
            Active(t.db, w, t.clock) <= Active(s.db, w, s.clock)
  {
    var t := Apply(cfg, s, e);
    forall id | id in Active(t.db, w, t.clock)
      ensures id in Active(s.db, w, s.clock)
    {
      LeaseOrigin(cfg, s, e, id);
    }
  }

  lemma RoomStays(cfg: Config, s: Coord, e: Step, slot: Slot)
    requires ValidConfig(cfg) && Inv(cfg, s) && Enabled(cfg, s, e) && !Starting(e)
    requires RoomFor(cfg, s, slot)
    ensures RoomFor(cfg, Apply(cfg, s, e), slot)
  {
    var t := Apply(cfg, s, e);
    ActiveShrinks(cfg, s, e, slot.worker);
    SubsetSize(Active(t.db, slot.worker, t.clock), Active(s.db, slot.worker, s.clock));
    forall id | id in t.db.jobs && Executing(t.db.jobs[id], t.clock)
      ensures t.db.jobs[id].slot != slot
    {
      LeaseOrigin(cfg, s, e, id);
    }
  }

  lemma QuietCap(cfg: Config, s: Coord, e: Step)
    requires ValidConfig(cfg) && Inv(cfg, s) && Enabled(cfg, s, e) && !Starting(e)
    requires OneLeasePerSlot(s) && WithinCapacity(cfg, s)
    ensures OneLeasePerSlot(Apply(cfg, s, e)) && WithinCapacity(cfg, Apply(cfg, s, e))
  {
    var t := Apply(cfg, s, e);
    forall w
      ensures |Active(t.db, w, t.clock)| <= Capacity(cfg, w)
    {
      ActiveShrinks(cfg, s, e, w);
      SubsetSize(Active(t.db, w, t.clock), Active(s.db, w, s.clock));
    }
    forall a, b | a in t.db.jobs && b in t.db.jobs
      && Executing(t.db.jobs[a], t.clock) && Executing(t.db.jobs[b], t.clock)
      && t.db.jobs[a].slot == t.db.jobs[b].slot
      ensures a == b
    {
      LeaseOrigin(cfg, s, e, a);
      LeaseOrigin(cfg, s, e, b);
    }
  }

  lemma QuietRoom(cfg: Config, s: Coord, e: Step)
    requires ValidConfig(cfg) && Inv(cfg, s) && Enabled(cfg, s, e) && !Starting(e)
    requires CapInv(cfg, s)
    ensures RoomHeld(cfg, Apply(cfg, s, e))
  {
    var t := Apply(cfg, s, e);
    if s.lock.BeginReady? {
      RoomStays(cfg, s, e, s.lock.r.slot);
    }
    if s.lock.ClaimSelected? {
      RoomStays(cfg, s, e, s.lock.slot);
    }
    if e.BeginCapacity? && t.lock.BeginReady? {
      assert HasRoom(cfg, s.db, t.lock.r.slot, s.clock);
    }
    if e.ClaimSelect? && t.lock.ClaimSelected? {
      assert Eligible(cfg, s.db, t.lock.slot, s.clock);
    }
  }

  // ----- steps that start an attempt -----

  function StartSlot(s: Coord): Slot
    requires s.lock.BeginReady? || s.lock.ClaimSelected?
  {
    if s.lock.BeginReady? then s.lock.r.slot else s.lock.slot
  }

  lemma StartedSlot(cfg: Config, s: Coord, e: Step, id: nat)
    requires ValidConfig(cfg) && Inv(cfg, s) && Enabled(cfg, s, e) && Starting(e)
    requires id in Apply(cfg, s, e).db.jobs
    ensures id in s.db.jobs
    ensures StartsJob(s, e, id) ==> Apply(cfg, s, e).db.jobs[id].slot == StartSlot(s)
  {
  }

  // Whoever is executing after the start was executing before it, or is the started job.
  lemma StartedActive(cfg: Config, s: Coord, e: Step, w: string)
    requires ValidConfig(cfg) && Inv(cfg, s) && Enabled(cfg, s, e) && Starting(e)
    ensures var before, after := Active(s.db, w, s.clock), Active(Apply(cfg, s, e).db, w, s.clock);
            after <= before || exists id :: StartsJob(s, e, id) && id in after && after <= before + {id}
  {
    var before, after := Active(s.db, w, s.clock), Active(Apply(cfg, s, e).db, w, s.clock);
    forall id | id in after && !StartsJob(s, e, id)
      ensures id in before
    {
      LeaseOrigin(cfg, s, e, id);
    }
    if !(after <= before) {
      var id :| id in after && id !in before;
      assert after <= before + {id};
    }
  }

  lemma StartCap(cfg: Config, s: Coord, e: Step)
    requires ValidConfig(cfg) && Inv(cfg, s) && Enabled(cfg, s, e) && Starting(e)
    requires CapInv(cfg, s)
    ensures WithinCapacity(cfg, Apply(cfg, s, e))
  {
    var t := Apply(cfg, s, e);
    forall w
      ensures |Active(t.db, w, t.clock)| <= Capacity(cfg, w)
    {
      var before, after := Active(s.db, w, s.clock), Active(t.db, w, t.clock);
      StartedActive(cfg, s, e, w);
      if after <= before {
        SubsetSize(after, before);
      } else {
        var id :| StartsJob(s, e, id) && id in after && after <= before + {id};
        StartedSlot(cfg, s, e, id);
        assert StartSlot(s).worker == w;
        SubsetSize(after, before + {id});
      }
    }
  }

  lemma StartSlots(cfg: Config, s: Coord, e: Step)
    requires ValidConfig(cfg) && Inv(cfg, s) && Enabled(cfg, s, e) && Starting(e)
    requires CapInv(cfg, s)
    ensures OneLeasePerSlot(Apply(cfg, s, e))
  {
    var t := Apply(cfg, s, e);
    forall a, b | a in t.db.jobs && b in t.db.jobs
      && Executing(t.db.jobs[a], t.clock) && Executing(t.db.jobs[b], t.clock)
      && t.db.jobs[a].slot == t.db.jobs[b].slot
      ensures a == b
    {
      StartedSlot(cfg, s, e, a);
      StartedSlot(cfg, s, e, b);
      if !StartsJob(s, e, a) {
        LeaseOrigin(cfg, s, e, a);
      }
      if !StartsJob(s, e, b) {
        LeaseOrigin(cfg, s, e, b);
      }
      assert !SlotBusy(s.db, StartSlot(s), s.clock);
    }
  }

  lemma CapKept(cfg: Config, s: Coord, e: Step)
    requires ValidConfig(cfg) && Inv(cfg, s) && Enabled(cfg, s, e) && CapInv(cfg, s)
    ensures CapInv(cfg, Apply(cfg, s, e))
  {
    if Starting(e) {
      StartCap(cfg, s, e);
      StartSlots(cfg, s, e);
    } else {
      QuietCap(cfg, s, e);
      QuietRoom(cfg, s, e);
    }
  }

  lemma {:induction false} RunCap(cfg: Config, tr: seq<Coord>, es: seq<Step>, k: nat)
    requires Run(cfg, tr, es) && k < |tr|
    ensures Inv(cfg, tr[k]) && CapInv(cfg, tr[k])
  {
    if k == 0 {
      forall w
        ensures |Active(START.db, w, START.clock)| <= Capacity(cfg, w)
      {
        assert Active(START.db, w, START.clock) == {};
      }
    } else {
      RunCap(cfg, tr, es, k - 1);
      InvKept(cfg, tr[k - 1], es[k - 1]);
      CapKept(cfg, tr[k - 1], es[k - 1]);
    }
  }

  // Execution cap: at every moment of every run each pool has at most max_concurrency live
  // leases and no slot holds two, in SQL mode and in RabbitMQ mode alike.
  lemma ExecutionCap(cfg: Config, tr: seq<Coord>, es: seq<Step>, k: nat, w: string)
    requires Run(cfg, tr, es) && k < |tr|
    ensures |Active(tr[k].db, w, tr[k].clock)| <= Capacity(cfg, w)
    ensures forall a, b | a in Active(tr[k].db, w, tr[k].clock) && b in Active(tr[k].db, w, tr[k].clock)
              && tr[k].db.jobs[a].slot == tr[k].db.jobs[b].slot :: a == b
  {
    RunCap(cfg, tr, es, k);
  }
}
