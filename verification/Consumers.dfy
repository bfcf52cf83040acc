// Bounded consumer admission in RabbitMQ mode: which slots a pool has admitted or leased, why
// the count stays within the pool, and exactly when a late availability report breaks it.
module Consumers {
  import opened Base
  import opened Rows
  import opened Queue
  import opened Lifecycle
  import opened Bulk
  import opened Coordinator
  import opened Scheduler

  // An admission that is still running covers exactly the readiness of its slot.
  predicate ConsumerInv(s: Coord) {
    forall slot :: slot in s.db.slots && s.db.slots[slot].consumerUntil > s.clock ==>
      s.db.slots[slot].readyUntil == s.db.slots[slot].consumerUntil
  }

  // The slots a pool has given away: admitted ones, leased ones, and the one a begin_attempt
  // has found admitted and idle but not leased yet.
  function Held(s: Coord, w: string): set<string> {
    Occupied(s.db, w, s.clock)
    + if s.lock.BeginReady? && s.lock.r.slot.worker == w then {s.lock.r.slot.instance} else {}
  }

  ghost predicate AdmissionBound(cfg: Config, s: Coord) {
    forall w :: |Held(s, w)| <= Capacity(cfg, w)
  }

  // The admission of this slot ran out between the start of the reporting transaction and its
  // statement. A caller can see this before reporting: it is the interval in which report and
  // admission disagree about the present.
  predicate Lapsed(s: Coord, slot: Slot, now: Time) {
    slot in s.db.slots && now < s.db.slots[slot].consumerUntil <= s.clock
  }

  predicate Timely(s: Coord, e: Step) {
    e.ReportSlot? ==> !Lapsed(s, e.slot, e.now)
  }

  lemma LeasedSlotOrigin(cfg: Config, s: Coord, e: Step, w: string)
    requires ValidConfig(cfg) && Inv(cfg, s) && Enabled(cfg, s, e)
    ensures var t := Apply(cfg, s, e);
            LeasedSlots(t.db, w, t.clock) <=
            LeasedSlots(s.db, w, s.clock)
            + (if e.BeginWrite? && s.lock.BeginReady? && s.lock.r.slot.worker == w
               then {s.lock.r.slot.instance} else {})
            + (if e.ClaimTake? then LeasedSlots(t.db, w, t.clock) else {})
  {
    var t := Apply(cfg, s, e);
    forall id | id in Active(t.db, w, t.clock) && !e.ClaimTake?
      ensures t.db.jobs[id].slot.instance in LeasedSlots(s.db, w, s.clock)
           || (e.BeginWrite? && s.lock.BeginReady? && s.lock.r.slot == t.db.jobs[id].slot)
    {
      if StartsJob(s, e, id) {
        StartedSlot(cfg, s, e, id);
      } else {
        LeaseOrigin(cfg, s, e, id);
        assert id in Active(s.db, w, s.clock);
      }
    }
  }

  predicate MovesSlots(e: Step) {
    e.ReportSlot? || e.RegisterSlot? || e.ClaimRequest?
  }

  lemma SlotsUntouched(cfg: Config, s: Coord, e: Step)
    requires ValidConfig(cfg) && Inv(cfg, s) && Enabled(cfg, s, e) && !MovesSlots(e)
    ensures Apply(cfg, s, e).db.slots == s.db.slots
  {
    match e {
      case ClaimReap => ReapRows(s.db, s.lock.now);
      case CleanUp(now) => ReapRows(s.db, now);
      case ReconcileAll => ReconcileRows(s.db, s.clock);
      case _ =>
    }
  }

  lemma ConsumerKept(cfg: Config, s: Coord, e: Step)
    requires ValidConfig(cfg) && Inv(cfg, s) && Enabled(cfg, s, e) && ConsumerInv(s)
    ensures ConsumerInv(Apply(cfg, s, e))
  {
    Forward(cfg, s, e);
    if !MovesSlots(e) {
      SlotsUntouched(cfg, s, e);
    }
  }

  // ----- one step -----

  lemma AdmittedShrinks(cfg: Config, s: Coord, e: Step, w: string)
    requires ValidConfig(cfg) && Inv(cfg, s) && Enabled(cfg, s, e) && ConsumerInv(s)
    requires cfg.rabbit && Timely(s, e) && !e.RegisterSlot?
    ensures var t := Apply(cfg, s, e);
            AdmittedSlots(t.db, w, t.clock) <= AdmittedSlots(s.db, w, s.clock)
  {
    var t := Apply(cfg, s, e);
    Forward(cfg, s, e);
    if !MovesSlots(e) {
      SlotsUntouched(cfg, s, e);
    }
    forall slot | slot in t.db.slots && slot.worker == w && Admitted(t.db, slot, t.clock)
      ensures slot in s.db.slots && Admitted(s.db, slot, s.clock)
    {
    }
  }

  lemma HeldShrinks(cfg: Config, s: Coord, e: Step, w: string)
    requires ValidConfig(cfg) && Inv(cfg, s) && Enabled(cfg, s, e) && ConsumerInv(s)
    requires cfg.rabbit && Timely(s, e) && !e.RegisterSlot?
    ensures Held(Apply(cfg, s, e), w) <= Held(s, w)
  {
    AdmittedShrinks(cfg, s, e, w);
    LeasedSlotOrigin(cfg, s, e, w);
    var t := Apply(cfg, s, e);
    if e.BeginCapacity? && t.lock.BeginReady? && t.lock.r.slot.worker == w {
      assert t.lock.r.slot.instance in AdmittedSlots(s.db, w, s.clock);
    }
  }

  lemma RegisteredSlots(cfg: Config, s: Coord, e: Step, w: string)
    requires ValidConfig(cfg) && Inv(cfg, s) && Enabled(cfg, s, e) && e.RegisterSlot?
    ensures Held(Apply(cfg, s, e), w) <= Occupied(s.db, w, s.clock)
         + (if Admits(cfg, s.db, e.slot, s.clock) && e.slot.worker == w then {e.slot.instance} else {})
  {
    var t := Apply(cfg, s, e);
    assert Active(t.db, w, t.clock) == Active(s.db, w, s.clock);
  }

  lemma RegisterHeld(cfg: Config, s: Coord, e: Step, w: string)
    requires ValidConfig(cfg) && Inv(cfg, s) && Enabled(cfg, s, e) && e.RegisterSlot?
    requires AdmissionBound(cfg, s)
    ensures |Held(Apply(cfg, s, e), w)| <= Capacity(cfg, w)
  {
    var occupied := Occupied(s.db, w, s.clock);
    assert Held(s, w) == occupied;
    RegisteredSlots(cfg, s, e, w);
    if Admits(cfg, s.db, e.slot, s.clock) && e.slot.worker == w {
      SubsetSize(Held(Apply(cfg, s, e), w), occupied + {e.slot.instance});
    } else {
      SubsetSize(Held(Apply(cfg, s, e), w), occupied);
    }
  }

  lemma AdmissionKept(cfg: Config, s: Coord, e: Step)
    requires ValidConfig(cfg) && Inv(cfg, s) && Enabled(cfg, s, e) && ConsumerInv(s)
    requires cfg.rabbit && Timely(s, e) && AdmissionBound(cfg, s)
    ensures AdmissionBound(cfg, Apply(cfg, s, e))
  {
    forall w
      ensures |Held(Apply(cfg, s, e), w)| <= Capacity(cfg, w)
    {
      if e.RegisterSlot? {
        RegisterHeld(cfg, s, e, w);
      } else {
        HeldShrinks(cfg, s, e, w);
        SubsetSize(Held(Apply(cfg, s, e), w), Held(s, w));
      }
    }
  }

  // ----- exactly when a late report breaks the bound -----

  // A ready report whose transaction began before the admission lapsed, and whose new
  // deadline is still ahead, admits the slot again without asking.
  predicate Readmits(cfg: Config, s: Coord, slot: Slot, ready: bool, now: Time) {
    Lapsed(s, slot, now) && s.db.slots[slot].readyUntil >= now - DAY
    && ready && now + cfg.availabilityTtl * SECOND > s.clock
  }

  // A report touches no lease and at most the reporting slot's admission.
  lemma ReportedSlots(cfg: Config, s: Coord, slot: Slot, ready: bool, now: Time, w: string)
    requires ValidConfig(cfg) && Inv(cfg, s) && ConsumerInv(s) && now <= s.clock
    ensures var t := Apply(cfg, s, ReportSlot(slot, ready, now));
            && Active(t.db, w, t.clock) == Active(s.db, w, s.clock)
            && AdmittedSlots(t.db, w, t.clock) - {slot.instance} == AdmittedSlots(s.db, w, s.clock) - {slot.instance}
            && (w != slot.worker ==> AdmittedSlots(t.db, w, t.clock) == AdmittedSlots(s.db, w, s.clock))
  {
    var t := Apply(cfg, s, ReportSlot(slot, ready, now));
    assert Active(t.db, w, t.clock) == Active(s.db, w, s.clock);
    assert forall other :: other != slot ==>
      (other in t.db.slots && Admitted(t.db, other, t.clock)
       <==> other in s.db.slots && Admitted(s.db, other, s.clock));
  }

  lemma ReportAdmits(cfg: Config, s: Coord, slot: Slot, ready: bool, now: Time)
    requires ValidConfig(cfg) && Inv(cfg, s) && ConsumerInv(s) && now <= s.clock
    ensures var t := Apply(cfg, s, ReportSlot(slot, ready, now));
            if Readmits(cfg, s, slot, ready, now)
            then slot.instance in AdmittedSlots(t.db, slot.worker, t.clock)
            else AdmittedSlots(t.db, slot.worker, t.clock) <= AdmittedSlots(s.db, slot.worker, s.clock)
  {
    var t := Apply(cfg, s, ReportSlot(slot, ready, now));
    ReportedSlots(cfg, s, slot, ready, now, slot.worker);
    if Readmits(cfg, s, slot, ready, now) {
      assert Admitted(t.db, slot, t.clock);
    } else if Admitted(t.db, slot, t.clock) {
      assert Admitted(s.db, slot, s.clock);
    }
  }

  // The whole effect of a report on what its pool has given away.
  lemma ReportHeld(cfg: Config, s: Coord, slot: Slot, ready: bool, now: Time)
    requires ValidConfig(cfg) && Inv(cfg, s) && ConsumerInv(s) && now <= s.clock
    ensures var t := Apply(cfg, s, ReportSlot(slot, ready, now));
            && Held(t, slot.worker) <= Held(s, slot.worker) + {slot.instance}
            && Held(s, slot.worker) - {slot.instance} <= Held(t, slot.worker)
            && (Readmits(cfg, s, slot, ready, now) ==>
                 Held(t, slot.worker) == Held(s, slot.worker) + {slot.instance})
            && (!Readmits(cfg, s, slot, ready, now) ==> Held(t, slot.worker) <= Held(s, slot.worker))
            && (forall w :: w != slot.worker ==> Held(t, w) == Held(s, w))
  {
    var t := Apply(cfg, s, ReportSlot(slot, ready, now));
    forall w
      ensures Active(t.db, w, t.clock) == Active(s.db, w, s.clock)
      ensures AdmittedSlots(t.db, w, t.clock) - {slot.instance} == AdmittedSlots(s.db, w, s.clock) - {slot.instance}
      ensures w != slot.worker ==> AdmittedSlots(t.db, w, t.clock) == AdmittedSlots(s.db, w, s.clock)
    {
      ReportedSlots(cfg, s, slot, ready, now, w);
    }
    ReportAdmits(cfg, s, slot, ready, now);
  }

  // The pool gets one more slot, or none.
  predicate OneSlotMoves(s: Coord, t: Coord, slot: Slot, readmits: bool) {
    if readmits then Held(t, slot.worker) == Held(s, slot.worker) + {slot.instance}
    else Held(t, slot.worker) <= Held(s, slot.worker)
  }

  lemma OneSlotBoundIff(cfg: Config, s: Coord, t: Coord, slot: Slot, readmits: bool)
    requires AdmissionBound(cfg, s) && OneSlotMoves(s, t, slot, readmits)
    requires forall w :: w != slot.worker ==> Held(t, w) == Held(s, w)
    ensures AdmissionBound(cfg, t) <==> !(readmits && slot.instance !in Held(s, slot.worker)
                                          && |Held(s, slot.worker)| == Capacity(cfg, slot.worker))
  {
    var w := slot.worker;
    assert |Held(s, w)| <= Capacity(cfg, w);
    if readmits {
      assert slot.instance in Held(s, w) ==> Held(t, w) == Held(s, w);
    } else {
      SubsetSize(Held(t, w), Held(s, w));
    }
  }

  // For every state within the bound and every report, however late: the report keeps the
  // bound if and only if it does not readmit a lapsed slot of a pool that is full without it.
  lemma ReportKeepsBoundIff(cfg: Config, s: Coord, slot: Slot, ready: bool, now: Time)
    requires ValidConfig(cfg) && Inv(cfg, s) && ConsumerInv(s) && now <= s.clock && AdmissionBound(cfg, s)
    ensures AdmissionBound(cfg, Apply(cfg, s, ReportSlot(slot, ready, now)))
       <==> !(Readmits(cfg, s, slot, ready, now) && slot.instance !in Held(s, slot.worker)
              && |Held(s, slot.worker)| == Capacity(cfg, slot.worker))
  {
    ReportHeld(cfg, s, slot, ready, now);
    OneSlotBoundIff(cfg, s, Apply(cfg, s, ReportSlot(slot, ready, now)), slot, Readmits(cfg, s, slot, ready, now));
  }

  // ----- every run -----

  // The one event that breaks the bound: a report readmits a lapsed slot of a pool that is full
  // without it.
  predicate Overbooks(cfg: Config, s: Coord, e: Step) {
    e.ReportSlot? && Readmits(cfg, s, e.slot, e.ready, e.now)
    && e.slot.instance !in Held(s, e.slot.worker) && |Held(s, e.slot.worker)| == Capacity(cfg, e.slot.worker)
  }

  lemma BoundKeptIff(cfg: Config, s: Coord, e: Step)
    requires ValidConfig(cfg) && Inv(cfg, s) && Enabled(cfg, s, e) && ConsumerInv(s)
    requires cfg.rabbit && AdmissionBound(cfg, s)
    ensures AdmissionBound(cfg, Apply(cfg, s, e)) <==> !Overbooks(cfg, s, e)
  {
    if e.ReportSlot? {
      ReportKeepsBoundIff(cfg, s, e.slot, e.ready, e.now);
    } else {
      AdmissionKept(cfg, s, e);
    }
  }

  // No report before state k overbooks its pool. Reports that do not straddle a lapse never do.
  predicate Sparing(cfg: Config, tr: seq<Coord>, es: seq<Step>, k: nat)
    requires k <= |es| < |tr|
  {
    forall i :: 0 <= i < k ==> !Overbooks(cfg, tr[i], es[i])
  }

  lemma {:induction false} RunConsumers(cfg: Config, tr: seq<Coord>, es: seq<Step>, k: nat)
    requires Run(cfg, tr, es) && k < |tr|
    ensures Inv(cfg, tr[k]) && ConsumerInv(tr[k])
  {
    Coordinator.RunInv(cfg, tr, es, k);
    if k > 0 {
      RunConsumers(cfg, tr, es, k - 1);
      ConsumerKept(cfg, tr[k - 1], es[k - 1]);
    }
  }

  lemma NothingHeld(w: string)
    ensures Held(START, w) == {}
  {
    assert Active(EMPTY, w, 0) == {} && LeasedSlots(EMPTY, w, 0) == {} && AdmittedSlots(EMPTY, w, 0) == {};
  }

  lemma StartBound(cfg: Config)
    ensures AdmissionBound(cfg, START)
  {
    forall w
      ensures |Held(START, w)| <= Capacity(cfg, w)
    {
      NothingHeld(w);
    }
  }

  lemma BoundMoveIff(cfg: Config, tr: seq<Coord>, es: seq<Step>, k: nat)
    requires Run(cfg, tr, es) && cfg.rabbit && k < |es| && AdmissionBound(cfg, tr[k])
    ensures AdmissionBound(cfg, tr[k + 1]) <==> !Overbooks(cfg, tr[k], es[k])
  {
    RunConsumers(cfg, tr, es, k);
    var s, e := RunMoves(cfg, tr, es, k);
    BoundKeptIff(cfg, s, e);
  }

  lemma {:induction false} SparingIsBounded(cfg: Config, tr: seq<Coord>, es: seq<Step>, k: nat)
    requires Run(cfg, tr, es) && cfg.rabbit && k < |tr| && Sparing(cfg, tr, es, k)
    ensures AdmissionBound(cfg, tr[k])
  {
    if k == 0 {
      StartBound(cfg);
    } else {
      SparingIsBounded(cfg, tr, es, k - 1);
      BoundMoveIff(cfg, tr, es, k - 1);
    }
  }

  // Admission bound, exactly: over a whole run the bound holds up to state k if and only if no report
  // before it readmits a lapsed slot of a pool that is full without it.
  lemma AdmissionBoundIff(cfg: Config, tr: seq<Coord>, es: seq<Step>, k: nat)
    requires Run(cfg, tr, es) && cfg.rabbit && k < |tr|
    ensures (forall m :: 0 <= m <= k ==> AdmissionBound(cfg, tr[m])) <==> Sparing(cfg, tr, es, k)
  {
    if Sparing(cfg, tr, es, k) {
      forall m | 0 <= m <= k
        ensures AdmissionBound(cfg, tr[m])
      {
        SparingIsBounded(cfg, tr, es, m);
      }
    }
    if forall m :: 0 <= m <= k ==> AdmissionBound(cfg, tr[m]) {
      forall i | 0 <= i < k
        ensures !Overbooks(cfg, tr[i], es[i])
      {
        assert AdmissionBound(cfg, tr[i]) && AdmissionBound(cfg, tr[i + 1]);
        BoundMoveIff(cfg, tr, es, i);
      }
    }
  }

  // Then admitted slots and live leases together never exceed the pool.
  lemma AdmissionNeverExceeds(cfg: Config, tr: seq<Coord>, es: seq<Step>, k: nat, w: string)
    requires Run(cfg, tr, es) && cfg.rabbit && k < |tr| && Sparing(cfg, tr, es, k)
    ensures |Occupied(tr[k].db, w, tr[k].clock)| <= Capacity(cfg, w)
  {
    SparingIsBounded(cfg, tr, es, k);
    SubsetSize(Occupied(tr[k].db, w, tr[k].clock), Held(tr[k], w));
  }

  // Distinct live leases sit in distinct slots, none of them this idle one: by counting, an
  // admitted idle slot is never turned away for want of pool capacity.
  lemma AdmittedIdleSlotFits(cfg: Config, tr: seq<Coord>, es: seq<Step>, k: nat, slot: Slot)
    requires Run(cfg, tr, es) && cfg.rabbit && k < |tr| && Sparing(cfg, tr, es, k)
    requires Admitted(tr[k].db, slot, tr[k].clock) && !SlotBusy(tr[k].db, slot, tr[k].clock)
    ensures |Active(tr[k].db, slot.worker, tr[k].clock)| < Capacity(cfg, slot.worker)
    ensures HasRoom(cfg, tr[k].db, slot, tr[k].clock)
  {
    var s := tr[k];
    RunCap(cfg, tr, es, k);
    SparingIsBounded(cfg, tr, es, k);
    var active := Active(s.db, slot.worker, s.clock);
    var occupied := Occupied(s.db, slot.worker, s.clock);
    var db := s.db;
    var instanceOf := (id: nat) => if id in db.jobs then db.jobs[id].slot.instance else "";
    forall id | id in active
      ensures instanceOf(id) in occupied - {slot.instance}
    {
      assert instanceOf(id) in LeasedSlots(s.db, slot.worker, s.clock);
      assert db.jobs[id].slot != slot;
    }
    forall a, b | a in active && b in active && instanceOf(a) == instanceOf(b)
      ensures a == b
    {
      assert db.jobs[a].slot == db.jobs[b].slot;
    }
    InjectionSize(active, occupied - {slot.instance}, instanceOf);
    assert slot.instance in AdmittedSlots(s.db, slot.worker, s.clock);
    SubsetSize(occupied, Held(s, slot.worker));
  }

  // One pool of one slot, thirty seconds of readiness.
  const SMALL: Config := Config(120, 3, 10, 30, 7200, map["pool" := Policy(0, 1)], true)

  predicate StepsTo(cfg: Config, s: Coord, e: Step, t: Coord) {
    Enabled(cfg, s, e) && t == Apply(cfg, s, e)
  }

  lemma SixMoves(cfg: Config, s: seq<Coord>, es: seq<Step>)
    requires ValidConfig(cfg) && |s| == 7 && |es| == 6 && s[0] == START
    requires StepsTo(cfg, s[0], es[0], s[1]) && StepsTo(cfg, s[1], es[1], s[2]) && StepsTo(cfg, s[2], es[2], s[3])
    requires StepsTo(cfg, s[3], es[3], s[4]) && StepsTo(cfg, s[4], es[4], s[5]) && StepsTo(cfg, s[5], es[5], s[6])
    ensures Run(cfg, s, es)
  {
  }

  function Idle(slots: map<Slot, Availability>, clock: Time): Coord {
    START.(db := EMPTY.(slots := slots), clock := clock)
  }

  lemma IdleOccupied(slots: map<Slot, Availability>, clock: Time)
    ensures LeasedSlots(Idle(slots, clock).db, "pool", clock) == {}
  {
    assert Active(Idle(slots, clock).db, "pool", clock) == {};
  }

  lemma IdleReport(slots: map<Slot, Availability>, clock: Time, slot: Slot, now: Time)
    requires now <= clock
    requires forall x :: x in slots ==> slots[x].readyUntil >= now - DAY
    ensures var row := if slot in slots then Some(slots[slot]) else None;
            StepsTo(SMALL, Idle(slots, clock), ReportSlot(slot, true, now),
                  Idle(slots[slot := Reported(SMALL, row, true, now)], clock))
  {
    assert RecentSlots(slots, now) == slots;
  }

  lemma IdleRegister(slots: map<Slot, Availability>, clock: Time, slot: Slot)
    requires slot in slots && slot.worker == "pool" && slots[slot].readyUntil > clock
    requires forall x :: x in slots ==> slots[x].consumerUntil <= clock
    ensures StepsTo(SMALL, Idle(slots, clock), RegisterSlot(slot),
                  Idle(slots[slot := slots[slot].(consumerUntil := slots[slot].readyUntil)], clock))
  {
    IdleOccupied(slots, clock);
    assert Occupied(Idle(slots, clock).db, "pool", clock) == {};
  }

  const A: Slot := Slot("pool", "a")
  const B: Slot := Slot("pool", "b")
  const LATE: Time := 31 * SECOND

  // Availability rows of the two slots: reported, admitted, and a's after the late report.
  const A1: Availability := Availability(30 * SECOND, 10 * SECOND, -1)
  const A2: Availability := Availability(30 * SECOND, 10 * SECOND, 30 * SECOND)
  const A3: Availability := Availability(59 * SECOND, 10 * SECOND, 59 * SECOND)
  const B1: Availability := Availability(61 * SECOND, 41 * SECOND, -1)
  const B2: Availability := Availability(61 * SECOND, 41 * SECOND, 61 * SECOND)

  lemma FirstAdmitted()
    ensures StepsTo(SMALL, START, ReportSlot(A, true, 0), Idle(map[A := A1], 0))
    ensures StepsTo(SMALL, Idle(map[A := A1], 0), RegisterSlot(A), Idle(map[A := A2], 0))
    ensures StepsTo(SMALL, Idle(map[A := A2], 0), Tick(LATE), Idle(map[A := A2], LATE))
  {
    IdleReport(map[], 0, A, 0);
    IdleRegister(map[A := A1], 0, A);
    assert map[A := A1][A := A2] == map[A := A2];
  }

  lemma SecondAdmitted()
    ensures StepsTo(SMALL, Idle(map[A := A2], LATE), ReportSlot(B, true, LATE), Idle(map[A := A2, B := B1], LATE))
    ensures StepsTo(SMALL, Idle(map[A := A2, B := B1], LATE), RegisterSlot(B), Idle(map[A := A2, B := B2], LATE))
  {
    IdleReport(map[A := A2], LATE, B, LATE);
    IdleRegister(map[A := A2, B := B1], LATE, B);
    assert map[A := A2, B := B1][B := B2] == map[A := A2, B := B2];
  }

  lemma FirstReadmitted()
    ensures StepsTo(SMALL, Idle(map[A := A2, B := B2], LATE), ReportSlot(A, true, 29 * SECOND),
                    Idle(map[A := A3, B := B2], LATE))
  {
    IdleReport(map[A := A2, B := B2], LATE, A, 29 * SECOND);
    assert map[A := A2, B := B2][A := A3] == map[A := A3, B := B2];
  }

  // The bound does fail: slot a is admitted and lapses, slot b is admitted in its place, and then a
  // report of a whose transaction began a second before the lapse brings a back.
  lemma LateReportBreaksBound() returns (tr: seq<Coord>, es: seq<Step>)
    ensures Run(SMALL, tr, es)
    ensures var s := tr[|es|];
            |Occupied(s.db, "pool", s.clock)| == 2 && Capacity(SMALL, "pool") == 1
  {
    es := [ReportSlot(A, true, 0), RegisterSlot(A), Tick(LATE),
           ReportSlot(B, true, LATE), RegisterSlot(B), ReportSlot(A, true, 29 * SECOND)];
    tr := [START, Idle(map[A := A1], 0), Idle(map[A := A2], 0), Idle(map[A := A2], LATE),
           Idle(map[A := A2, B := B1], LATE), Idle(map[A := A2, B := B2], LATE), Idle(map[A := A3, B := B2], LATE)];
    FirstAdmitted();
    SecondAdmitted();
    FirstReadmitted();
    SixMoves(SMALL, tr, es);
    BothAdmitted(map[A := A3, B := B2], LATE);
  }

  lemma BothAdmitted(slots: map<Slot, Availability>, clock: Time)
    requires slots.Keys == {Slot("pool", "a"), Slot("pool", "b")}
    requires forall x :: x in slots ==> slots[x].readyUntil > clock && slots[x].consumerUntil > clock
    ensures Occupied(Idle(slots, clock).db, "pool", clock) == {"a", "b"}
  {
    IdleOccupied(slots, clock);
    assert Slot("pool", "a") in slots && Slot("pool", "b") in slots;
  }
}
