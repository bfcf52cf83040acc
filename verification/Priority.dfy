// SQL slot mode: better pools fill first, and a slot whose loop is stuck stops reserving work.
module Priority {
  import opened Base
  import opened Rows
  import opened Queue
  import opened Lifecycle
  import opened Bulk
  import opened Coordinator
  import opened Scheduler
  import opened Consumers

  function SlotsOf(db: Db, w: string): set<Slot> {
    set s | s in db.slots && s.worker == w
  }

  // A pool has as many live leases as its policy and its registered slots allow.
  predicate Full(cfg: Config, s: Coord, w: string) {
    |Active(s.db, w, s.clock)| >= Min(Capacity(cfg, w), |SlotsOf(s.db, w)|)
  }

  predicate Better(cfg: Config, a: string, b: string) {
    a in cfg.policies && b in cfg.policies && cfg.policies[a].priority < cfg.policies[b].priority
  }

  // Every registered slot carries a slot UUID and is at work or ready and asking. A slot at work
  // makes no claim call, so nothing is asked of its deadlines.
  predicate AllPolling(s: Coord) {
    forall slot :: slot in s.db.slots ==>
      slot.instance != ""
      && (SlotBusy(s.db, slot, s.clock)
          || (s.db.slots[slot].readyUntil > s.clock && s.db.slots[slot].demandUntil > s.clock))
  }

  // No lease ends and no slot comes or goes in this step.
  ghost predicate Steady(s: Coord, t: Coord) {
    t.db.slots.Keys == s.db.slots.Keys
    && forall w :: Active(s.db, w, s.clock) <= Active(t.db, w, t.clock)
  }

  predicate NoLegacyLease(s: Coord) {
    (forall id :: id in s.db.jobs && Executing(s.db.jobs[id], s.clock) ==> s.db.jobs[id].slot.instance != "")
    && (s.lock.ClaimSelected? ==> s.lock.slot.instance != "")
  }

  predicate BetterPoolsFull(cfg: Config, s: Coord, w: string) {
    forall b :: b in cfg.policies && Better(cfg, b, w) ==> Full(cfg, s, b)
  }

  ghost predicate FillInv(cfg: Config, s: Coord) {
    && NoLegacyLease(s)
    && (forall w :: w in cfg.policies && Active(s.db, w, s.clock) != {} ==> BetterPoolsFull(cfg, s, w))
    && (s.lock.ClaimSelected? ==> BetterPoolsFull(cfg, s, s.lock.slot.worker))
  }

  // A pool whose idle slots poll and that offers no eligible slot is full: either it is at its cap,
  // or each of its slots holds a lease.
  lemma NoEligibleSlotMeansFull(cfg: Config, s: Coord, w: string)
    requires AllPolling(s) && NoLegacyLease(s) && w in cfg.policies
    requires forall slot :: slot in s.db.slots && slot.worker == w ==> !Eligible(cfg, s.db, slot, s.clock)
    ensures Full(cfg, s, w)
  {
    var active := Active(s.db, w, s.clock);
    if |active| < Capacity(cfg, w) {
      var db := s.db;
      var slotOf := (id: nat) => if id in db.jobs then db.jobs[id].slot else Slot("", "");
      forall slot | slot in SlotsOf(s.db, w)
        ensures exists id :: id in active && slotOf(id) == slot
      {
        assert !Eligible(cfg, s.db, slot, s.clock);
        assert !SlotBusy(s.db, Slot(w, ""), s.clock);
        assert SlotBusy(s.db, slot, s.clock);
        var id :| id in s.db.jobs && Executing(s.db.jobs[id], s.clock) && s.db.jobs[id].slot == slot;
        assert id in active && slotOf(id) == slot;
      }
      CoverSize(active, SlotsOf(s.db, w), slotOf);
    }
  }

  lemma SelectionFindsBetterFull(cfg: Config, s: Coord, slot: Slot)
    requires AllPolling(s) && NoLegacyLease(s) && Selected(cfg, s.db, slot, s.clock)
    ensures BetterPoolsFull(cfg, s, slot.worker)
  {
    forall b | b in cfg.policies && Better(cfg, b, slot.worker)
      ensures Full(cfg, s, b)
    {
      NoEligibleSlotMeansFull(cfg, s, b);
    }
  }

  lemma FullStays(cfg: Config, s: Coord, t: Coord, w: string)
    requires Steady(s, t) && Full(cfg, s, w)
    ensures Full(cfg, t, w)
  {
    SubsetSize(Active(s.db, w, s.clock), Active(t.db, w, t.clock));
    assert SlotsOf(t.db, w) == SlotsOf(s.db, w);
  }

  lemma LegacyKept(cfg: Config, s: Coord, e: Step)
    requires ValidConfig(cfg) && Inv(cfg, s) && Enabled(cfg, s, e) && !cfg.rabbit
    requires NoLegacyLease(s) && AllPolling(s)
    ensures NoLegacyLease(Apply(cfg, s, e))
  {
    var t := Apply(cfg, s, e);
    forall id | id in t.db.jobs && Executing(t.db.jobs[id], t.clock)
      ensures t.db.jobs[id].slot.instance != ""
    {
      if StartsJob(s, e, id) {
        StartedSlot(cfg, s, e, id);
      } else {
        LeaseOrigin(cfg, s, e, id);
      }
    }
  }

  lemma BetterStays(cfg: Config, s: Coord, t: Coord, w: string)
    requires Steady(s, t) && BetterPoolsFull(cfg, s, w)
    ensures BetterPoolsFull(cfg, t, w)
  {
    forall b | b in cfg.policies && Better(cfg, b, w)
      ensures Full(cfg, t, b)
    {
      FullStays(cfg, s, t, b);
    }
  }

  // A pool gets its first lease only through a selection that is still pending.
  lemma FirstLease(cfg: Config, s: Coord, e: Step, w: string)
    requires ValidConfig(cfg) && Inv(cfg, s) && Enabled(cfg, s, e) && !cfg.rabbit
    requires Active(s.db, w, s.clock) == {} && Active(Apply(cfg, s, e).db, w, Apply(cfg, s, e).clock) != {}
    ensures s.lock.ClaimSelected? && s.lock.slot.worker == w
  {
    var t := Apply(cfg, s, e);
    var id :| id in Active(t.db, w, t.clock);
    assert id !in Active(s.db, w, s.clock);
    if StartsJob(s, e, id) {
      StartedSlot(cfg, s, e, id);
    } else {
      LeaseOrigin(cfg, s, e, id);
    }
  }

  lemma SelectionKept(cfg: Config, s: Coord, e: Step)
    requires ValidConfig(cfg) && Inv(cfg, s) && Enabled(cfg, s, e)
    requires FillInv(cfg, s) && AllPolling(s) && Steady(s, Apply(cfg, s, e))
    ensures var t := Apply(cfg, s, e);
            t.lock.ClaimSelected? ==> BetterPoolsFull(cfg, t, t.lock.slot.worker)
  {
    var t := Apply(cfg, s, e);
    if t.lock.ClaimSelected? {
      if !s.lock.ClaimSelected? {
        assert e.ClaimSelect? && t.lock.slot == s.lock.slot;
        SelectionFindsBetterFull(cfg, s, s.lock.slot);
      }
      assert t.lock.slot == s.lock.slot;
      BetterStays(cfg, s, t, t.lock.slot.worker);
    }
  }

  lemma FillKept(cfg: Config, s: Coord, e: Step)
    requires ValidConfig(cfg) && Inv(cfg, s) && Enabled(cfg, s, e) && !cfg.rabbit
    requires FillInv(cfg, s) && AllPolling(s) && Steady(s, Apply(cfg, s, e))
    ensures FillInv(cfg, Apply(cfg, s, e))
  {
    var t := Apply(cfg, s, e);
    LegacyKept(cfg, s, e);
    SelectionKept(cfg, s, e);
    forall w | w in cfg.policies && Active(t.db, w, t.clock) != {}
      ensures BetterPoolsFull(cfg, t, w)
    {
      if Active(s.db, w, s.clock) == {} {
        FirstLease(cfg, s, e, w);
      }
      BetterStays(cfg, s, t, w);
    }
  }

  ghost predicate SteadyRun(tr: seq<Coord>, i: nat, k: nat)
    requires i <= k < |tr|
  {
    forall n :: i <= n < k ==> AllPolling(tr[n]) && Steady(tr[n], tr[n + 1])
  }

  lemma IdleIsFilled(cfg: Config, s: Coord)
    requires s.lock.Free? && forall w :: Active(s.db, w, s.clock) == {}
    ensures FillInv(cfg, s)
  {
    forall id | id in s.db.jobs
      ensures !Executing(s.db.jobs[id], s.clock)
    {
      assert id !in Active(s.db, s.db.jobs[id].slot.worker, s.clock);
    }
  }

  lemma {:induction false} RunFill(cfg: Config, tr: seq<Coord>, es: seq<Step>, i: nat, k: nat)
    requires Run(cfg, tr, es) && !cfg.rabbit && i <= k < |tr| && SteadyRun(tr, i, k)
    requires FillInv(cfg, tr[i])
    ensures FillInv(cfg, tr[k])
  {
    if i < k {
      RunFill(cfg, tr, es, i, k - 1);
      Coordinator.RunInv(cfg, tr, es, k - 1);
      var n := k - 1;
      assert AllPolling(tr[n]) && Steady(tr[n], tr[n + 1]) && tr[n + 1] == Apply(cfg, tr[n], es[n]);
      FillKept(cfg, tr[n], es[n]);
    }
  }

  // From the moment the system is idle, as long as every idle slot keeps polling and no lease ends,
  // a pool holds a lease only while every strictly better pool holds min(capacity, slots).
  lemma GreedyFill(cfg: Config, tr: seq<Coord>, es: seq<Step>, i: nat, k: nat, w: string, b: string)
    requires Run(cfg, tr, es) && !cfg.rabbit && i <= k < |tr| && SteadyRun(tr, i, k)
    requires tr[i].lock.Free? && forall any :: Active(tr[i].db, any, tr[i].clock) == {}
    requires Better(cfg, b, w) && Active(tr[k].db, w, tr[k].clock) != {}
    ensures |Active(tr[k].db, b, tr[k].clock)| >= Min(Capacity(cfg, b), |SlotsOf(tr[k].db, b)|)
  {
    IdleIsFilled(cfg, tr[i]);
    RunFill(cfg, tr, es, i, k);
    assert BetterPoolsFull(cfg, tr[k], w);
    assert Full(cfg, tr[k], b);
  }

  // A selected claim comes away with the first claimable row whenever one is not locked.
  lemma SelectedClaimSucceeds(cfg: Config, s: Coord, locked: set<nat>)
    requires s.lock.ClaimSelected?
    requires exists id :: id in s.db.jobs && id !in locked && Claimable(s.db.jobs[id], s.clock)
    ensures !Enabled(cfg, s, ClaimTake(None, locked))
    ensures exists id :: id in s.db.jobs && Enabled(cfg, s, ClaimTake(Some(id), locked))
  {
    CandidateExists(s.db, locked, s.clock);
    var id :| id in s.db.jobs && IsCandidate(s.db, id, locked, s.clock);
    assert Enabled(cfg, s, ClaimTake(Some(id), locked));
  }

  // Some request of the best eligible tier is selected whenever any slot is eligible.
  lemma BestTierSelected(cfg: Config, db: Db, clock: Time)
    requires exists slot :: slot in db.slots && Eligible(cfg, db, slot, clock)
    ensures exists slot :: slot in db.slots && Selected(cfg, db, slot, clock)
  {
    var ps := set s | s in db.slots && Eligible(cfg, db, s, clock) :: cfg.policies[s.worker].priority;
    var some :| some in db.slots && Eligible(cfg, db, some, clock);
    assert cfg.policies[some.worker].priority in ps;
    var best := Least(ps);
    var slot :| slot in db.slots && Eligible(cfg, db, slot, clock) && cfg.policies[slot.worker].priority == best;
    forall other | other in db.slots && Eligible(cfg, db, other, clock)
      ensures best <= cfg.policies[other.worker].priority
    {
      assert cfg.policies[other.worker].priority in ps;
    }
    assert Selected(cfg, db, slot, clock);
  }

  // ----- a stuck loop -----

  predicate Asks(s: Coord, e: Step, slot: Slot) {
    e.ClaimRequest? && s.lock.ClaimReaped? && s.lock.slot == slot
  }

  // A report that has no earlier row to update.
  predicate Enters(s: Coord, e: Step, slot: Slot) {
    e.ReportSlot? && e.slot == slot && slot !in RecentSlots(s.db.slots, e.now)
  }

  predicate DemandInv(cfg: Config, s: Coord) {
    forall slot :: slot in s.db.slots ==> s.db.slots[slot].demandUntil <= s.clock + cfg.demandTtl * SECOND
  }

  lemma DemandStep(cfg: Config, s: Coord, e: Step, slot: Slot)
    requires ValidConfig(cfg) && Inv(cfg, s) && Enabled(cfg, s, e)
    requires !Asks(s, e, slot) && !Enters(s, e, slot)
    ensures slot in Apply(cfg, s, e).db.slots ==>
              slot in s.db.slots && Apply(cfg, s, e).db.slots[slot].demandUntil == s.db.slots[slot].demandUntil
  {
    if !MovesSlots(e) {
      SlotsUntouched(cfg, s, e);
    }
  }

  lemma DemandKept(cfg: Config, s: Coord, e: Step)
    requires ValidConfig(cfg) && Inv(cfg, s) && Enabled(cfg, s, e) && DemandInv(cfg, s)
    ensures DemandInv(cfg, Apply(cfg, s, e))
  {
    Forward(cfg, s, e);
    if !MovesSlots(e) {
      SlotsUntouched(cfg, s, e);
    }
  }

  lemma {:induction false} RunDemand(cfg: Config, tr: seq<Coord>, es: seq<Step>, k: nat)
    requires Run(cfg, tr, es) && k < |tr|
    ensures Inv(cfg, tr[k]) && DemandInv(cfg, tr[k])
  {
    if k > 0 {
      RunDemand(cfg, tr, es, k - 1);
      InvKept(cfg, tr[k - 1], es[k - 1]);
      DemandKept(cfg, tr[k - 1], es[k - 1]);
    }
  }

  lemma {:induction false} DemandRun(cfg: Config, tr: seq<Coord>, es: seq<Step>, i: nat, k: nat, slot: Slot)
    requires Run(cfg, tr, es) && i <= k < |tr|
    requires forall n :: i <= n < k ==> !Asks(tr[n], es[n], slot) && !Enters(tr[n], es[n], slot)
    ensures slot in tr[k].db.slots ==>
              slot in tr[i].db.slots && tr[k].db.slots[slot].demandUntil == tr[i].db.slots[slot].demandUntil
  {
    if i < k {
      DemandRun(cfg, tr, es, i, k - 1, slot);
      Coordinator.RunInv(cfg, tr, es, k - 1);
      assert !Asks(tr[k - 1], es[k - 1], slot) && !Enters(tr[k - 1], es[k - 1], slot);
      assert Enabled(cfg, tr[k - 1], es[k - 1]) && tr[k - 1 + 1] == Apply(cfg, tr[k - 1], es[k - 1]);
      DemandStep(cfg, tr[k - 1], es[k - 1], slot);
    }
  }

  // A slot whose loop makes no claim call after state i is not eligible once the demand TTL has
  // passed, however many ready reports its reporter thread delivers: it cannot hold back a
  // lower tier.
  lemma StuckLoopStopsReserving(cfg: Config, tr: seq<Coord>, es: seq<Step>, i: nat, k: nat, slot: Slot)
    requires Run(cfg, tr, es) && i <= k < |tr|
    requires forall n :: i <= n < k ==> !Asks(tr[n], es[n], slot) && !Enters(tr[n], es[n], slot)
    requires tr[k].clock >= tr[i].clock + cfg.demandTtl * SECOND
    ensures !Eligible(cfg, tr[k].db, slot, tr[k].clock)
  {
    RunDemand(cfg, tr, es, i);
    DemandRun(cfg, tr, es, i, k, slot);
  }
}
