// No job is ever stuck in RabbitMQ mode: whatever happened before, as long as a job has attempts
// left and some pool has any capacity, a short continuation of the run starts it and completes it with
// any result.
module Progress {
  import opened Base
  import opened Rows
  import opened Queue
  import opened Lifecycle
  import opened Coordinator
  import opened Protocol
  import opened Delivery
  import Outcomes

  // One move, if it can be made.
  function Try(cfg: Config): (Sys, Move) -> Option<Sys> {
    (s: Sys, mv: Move) => if CanMove(cfg, s, mv) then Some(Do(cfg, s, mv)) else None
  }

  lemma GoOn(cfg: Config, tr: seq<Sys>, ms: seq<Move>, mv: Move) returns (tr': seq<Sys>, ms': seq<Move>)
    requires SysRun(cfg, tr, ms) && CanMove(cfg, tr[|ms|], mv)
    ensures SysRun(cfg, tr', ms') && tr <= tr' && ms <= ms' && |ms'| == |ms| + 1
    ensures tr'[|ms'|] == Do(cfg, tr[|ms|], mv)
  {
    tr', ms' := tr + [Do(cfg, tr[|ms|], mv)], ms + [mv];
  }

  // A run goes on with them.
  lemma {:induction false} RunOn(cfg: Config, tr: seq<Sys>, ms: seq<Move>, more: seq<Move>, t: Sys)
    returns (tr': seq<Sys>, ms': seq<Move>)
    requires SysRun(cfg, tr, ms) && After(Try(cfg), tr[|ms|], more) == Some(t)
    ensures SysRun(cfg, tr', ms') && tr <= tr' && ms <= ms' && |ms'| == |ms| + |more|
    ensures tr'[|ms'|] == t
    decreases |more|
  {
    tr', ms' := tr, ms;
    if more != [] {
      tr', ms' := GoOn(cfg, tr, ms, more[0]);
      tr', ms' := RunOn(cfg, tr', ms', more[1..], t);
    }
  }

  // ----- time: every lease, admission and delay runs out -----

  // Nothing is leased, admitted or held back any more.
  predicate Calm(db: Db, t: Time) {
    && (forall i :: i in db.jobs ==> !Executing(db.jobs[i], t))
    && (forall s :: s in db.slots ==> db.slots[s].consumerUntil <= t)
    && (forall m :: m in db.outbox ==> db.outbox[m].availableAt <= t)
  }

  lemma CalmEventually(db: Db, clock: Time) returns (t: Time)
    ensures clock <= t && Calm(db, t)
  {
    var leases: set<int> := set i | i in db.jobs && db.jobs[i].leaseUntil.Some? :: db.jobs[i].leaseUntil.value;
    var admissions: set<int> := set s | s in db.slots :: db.slots[s].consumerUntil;
    var delays: set<int> := set m | m in db.outbox :: db.outbox[m].availableAt;
    var a := Bound(leases);
    var b := Bound(admissions);
    var c := Bound(delays);
    t := clock + a + b + c;
    forall i | i in db.jobs
      ensures !Executing(db.jobs[i], t)
    {
      assert db.jobs[i].leaseUntil.Some? ==> db.jobs[i].leaseUntil.value in leases;
    }
    assert forall s :: s in db.slots ==> db.slots[s].consumerUntil in admissions;
    assert forall m :: m in db.outbox ==> db.outbox[m].availableAt in delays;
  }

  // The job waits for this message and nobody is in the way.
  predicate Waiting(c: Coord, id: nat, m: nat) {
    && c.lock.Free? && id in c.db.jobs && Unfinished(c.db.jobs[id])
    && c.db.jobs[id].dispatch == Some(m) && c.db.jobs[id].attempts < c.db.jobs[id].maxAttempts
    && !Executing(c.db.jobs[id], c.clock)
    && (m in c.db.outbox ==> c.db.outbox[m].availableAt <= c.clock)
  }

  // An open transaction ends, and time passes.
  lemma Quiet(cfg: Config, s: Sys, id: nat, m: nat) returns (ms: seq<Move>, t: Sys)
    requires Obligation(s.c, id, m) && s.c.db.jobs[id].attempts < s.c.db.jobs[id].maxAttempts
    ensures |ms| == 2 && After(Try(cfg), s, ms) == Some(t)
    ensures t == s.(c := t.c) && t.c.db == s.c.db && Waiting(t.c, id, m) && Calm(t.c.db, t.c.clock)
  {
    var until := CalmEventually(s.c.db, s.c.clock);
    var u := Do(cfg, s, Serve(Abandon));
    t := Do(cfg, u, Serve(Tick(until)));
    ms := [Serve(Abandon), Serve(Tick(until))];
    Two(Try(cfg), s, Serve(Abandon), u, Serve(Tick(until)));
  }

  // ----- a slot reports and is admitted -----

  lemma Vacant(cfg: Config, db: Db, slot: Slot, t: Time)
    requires ValidConfig(cfg) && Calm(db, t) && Capacity(cfg, slot.worker) > 0
    ensures var d := Report(cfg, db, slot, true, t);
            Admits(cfg, d, slot, t) && HasRoom(cfg, Register(cfg, d, slot, t), slot, t)
  {
    var d := Report(cfg, db, slot, true, t);
    var e := Register(cfg, d, slot, t);
    assert forall s :: s in d.slots ==> !Admitted(d, s, t);
    assert AdmittedSlots(d, slot.worker, t) == {};
    assert Active(d, slot.worker, t) == {} && Active(e, slot.worker, t) == {};
    assert LeasedSlots(d, slot.worker, t) == {};
  }

  lemma TwoReports(cfg: Config, s: Sys, slot: Slot)
    requires cfg.rabbit && s.c.lock.Free?
    ensures CanMove(cfg, s, Serve(ReportSlot(slot, true, s.c.clock)))
    ensures var d := Report(cfg, s.c.db, slot, true, s.c.clock);
            var u := s.(c := s.c.(db := d));
            && Do(cfg, s, Serve(ReportSlot(slot, true, s.c.clock))) == u
            && CanMove(cfg, u, Serve(RegisterSlot(slot)))
            && Do(cfg, u, Serve(RegisterSlot(slot))) == u.(c := u.c.(db := Register(cfg, d, slot, s.c.clock)))
  {
  }

  lemma Admit(cfg: Config, s: Sys, slot: Slot) returns (ms: seq<Move>, t: Sys)
    requires ValidConfig(cfg) && cfg.rabbit && s.c.lock.Free? && Calm(s.c.db, s.c.clock)
    requires Capacity(cfg, slot.worker) > 0
    ensures |ms| == 2 && After(Try(cfg), s, ms) == Some(t)
    ensures t == s.(c := t.c) && t.c == s.c.(db := t.c.db) && t.c.db == s.c.db.(slots := t.c.db.slots)
    ensures HasRoom(cfg, t.c.db, slot, t.c.clock)
  {
    Vacant(cfg, s.c.db, slot, s.c.clock);
    TwoReports(cfg, s, slot);
    var report := Serve(ReportSlot(slot, true, s.c.clock));
    var u := Do(cfg, s, report);
    t := Do(cfg, u, Serve(RegisterSlot(slot)));
    ms := [report, Serve(RegisterSlot(slot))];
    Two(Try(cfg), s, report, u, Serve(RegisterSlot(slot)));
  }

  // ----- a copy of the message reaches the jobs queue -----

  predicate InQueue(s: Sys, k: nat, id: nat, m: nat) {
    k in s.copies && s.copies[k] == Copy(id, m, InJobs)
  }

  // From the outbox, from the delayed queue, or from a consumer that goes away. The other rows of the
  // outbox may be with other publishers.
  lemma Fetch(cfg: Config, s: Sys, id: nat, m: nat) returns (ms: seq<Move>, t: Sys, k: nat)
    requires CopiesInv(s) && Waiting(s.c, id, m) && (Pending(s.c, id, m) || Carried(s, id, m))
    ensures |ms| <= 1 && After(Try(cfg), s, ms) == Some(t)
    ensures t.c == s.c && InQueue(t, k, id, m)
  {
    if Pending(s.c, id, m) {
      k := s.nextCopy;
      ms := [Publish(m, s.c.db.outbox.Keys - {m}, true)];
    } else {
      k :| k in s.copies && Carries(s, k, id, m);
      match s.copies[k].place
      case InJobs => ms := [];
      case InRetry => ms := [Requeue(k, false)];
      case Unacked(x) =>
        assert CopyOk(s, k);
        ms := [Disconnect(x)];
    }
    t := s;
    if ms != [] {
      One(Try(cfg), s, ms[0]);
      t := Do(cfg, s, ms[0]);
    }
  }

  // ----- a consumer takes it and calls begin_attempt -----

  lemma Fresh(xs: set<nat>) returns (x: nat)
    ensures x !in xs
  {
    var ys: set<int> := set y | y in xs :: y;
    var b := Bound(ys);
    x := b + 1;
    assert x in xs ==> x in ys;
  }

  predicate Called(s: Sys, x: nat, r: BeginRequest) {
    Engaged(s, x) && s.consumers[x].phase == Calling(r) && CopyOf(s, x).job == r.job && r in s.requests
  }

  lemma Take(cfg: Config, s: Sys, slot: Slot, k: nat, id: nat, m: nat) returns (ms: seq<Move>, t: Sys, x: nat)
    requires InQueue(s, k, id, m)
    ensures |ms| == 2 && After(Try(cfg), s, ms) == Some(t) && t.c == s.c
    ensures In(t, x, Holding) && t.consumers[x].slot == slot && CopyOf(t, x).job == id && CopyOf(t, x).message == m
  {
    x := Fresh(s.consumers.Keys);
    var u := Do(cfg, s, Connect(x, slot));
    t := Do(cfg, u, Deliver(k, x));
    ms := [Connect(x, slot), Deliver(k, x)];
    Two(Try(cfg), s, Connect(x, slot), u, Deliver(k, x));
  }

  lemma Ask(cfg: Config, s: Sys, x: nat) returns (ms: seq<Move>, t: Sys, r: BeginRequest)
    requires In(s, x, Holding)
    ensures |ms| == 1 && After(Try(cfg), s, ms) == Some(t) && t.c == s.c
    ensures r.slot == s.consumers[x].slot && r.job == CopyOf(s, x).job && r.message == CopyOf(s, x).message
    ensures Called(t, x, r)
  {
    var deliveries := set o | o in s.requests :: o.delivery;
    var d := Fresh(deliveries);
    assert forall o :: o in s.requests ==> o.delivery in deliveries;
    r := BeginRequest(s.consumers[x].slot, CopyOf(s, x).job, CopyOf(s, x).message, d);
    ms, t := [Call(x, d)], Do(cfg, s, Call(x, d));
    One(Try(cfg), s, Call(x, d));
  }

  // ----- the coordinator starts the attempt -----

  // Up to the capacity query.
  lemma Look(cfg: Config, s: Sys, x: nat, r: BeginRequest) returns (ms: seq<Move>, t: Sys)
    requires cfg.rabbit && Waiting(s.c, r.job, r.message) && Called(s, x, r)
    requires HasRoom(cfg, s.c.db, r.slot, s.c.clock)
    ensures |ms| == 2 && After(Try(cfg), s, ms) == Some(t)
    ensures Called(t, x, r) && t.c == s.c.(lock := BeginReady(r, s.c.clock))
  {
    var look := Serve(BeginLook(r, s.c.clock));
    assert Decide(cfg, s.c.db, r, s.c.clock) == Proceed;
    var u := Do(cfg, s, look);
    assert u.c == s.c.(lock := BeginRow(r, s.c.clock));
    t := Do(cfg, u, Serve(BeginCapacity));
    ms := [look, Serve(BeginCapacity)];
    Two(Try(cfg), s, look, u, Serve(BeginCapacity));
  }

  lemma Start(cfg: Config, s: Sys, x: nat, r: BeginRequest) returns (ms: seq<Move>, t: Sys, lease: Lease)
    requires ValidConfig(cfg) && Called(s, x, r) && s.c.lock == BeginReady(r, s.c.clock) && r.job in s.c.db.jobs
    ensures |ms| == 2 && After(Try(cfg), s, ms) == Some(t)
    ensures In(t, x, Phase.Working(lease)) && CopyOf(t, x).job == r.job
    ensures CompleteAccepted(t.c.db, r.job, lease, t.c.clock) && t.c.lock.Free?
  {
    lease := FreshLease(s.c.db, r.slot);
    var u := Do(cfg, s, Serve(BeginWrite));
    Outcomes.StartOutcome(cfg, s.c.db, r, s.c.clock, s.c.clock);
    assert (r, Begun(lease)) in u.answers;
    t := Do(cfg, u, Hear(x, Begun(lease)));
    ms := [Serve(BeginWrite), Hear(x, Begun(lease))];
    Two(Try(cfg), s, Serve(BeginWrite), u, Hear(x, Begun(lease)));
  }

  // ----- the consumer delivers its result and acknowledges the message -----

  lemma Succeed(cfg: Config, s: Sys, x: nat, id: nat, lease: Lease, text: string, segments: string, path: string)
    returns (ms: seq<Move>, t: Sys)
    requires In(s, x, Phase.Working(lease)) && CopyOf(s, x).job == id
    requires s.c.lock.Free? && CompleteAccepted(s.c.db, id, lease, s.c.clock)
    ensures |ms| == 2 && After(Try(cfg), s, ms) == Some(t)
    ensures Outcomes.Stored(t.c.db, id, text, segments, path) && In(t, x, Phase.Settled)
  {
    var complete := Serve(CompleteJob(id, lease, s.c.clock, text, segments, path));
    Outcomes.CompleteOutcome(s.c.db, id, lease, s.c.clock, text, segments, path);
    var u := Do(cfg, s, complete);
    assert (id, lease) in u.accepted;
    t := Do(cfg, u, Protocol.Finish(x));
    ms := [complete, Protocol.Finish(x)];
    Two(Try(cfg), s, complete, u, Protocol.Finish(x));
  }

  // ----- all of it -----

  // The job's message gets to a consumer of the slot, and the slot is admitted.
  lemma Reach(cfg: Config, s: Sys, id: nat, m: nat, slot: Slot) returns (ms: seq<Move>, t: Sys, x: nat)
    requires ValidConfig(cfg) && cfg.rabbit && SysInv(cfg, s) && Obligation(s.c, id, m)
    requires s.c.db.jobs[id].attempts < s.c.db.jobs[id].maxAttempts && Capacity(cfg, slot.worker) > 0
    ensures |ms| <= 7 && After(Try(cfg), s, ms) == Some(t)
    ensures Waiting(t.c, id, m) && HasRoom(cfg, t.c.db, slot, t.c.clock)
    ensures In(t, x, Holding) && t.consumers[x].slot == slot && CopyOf(t, x).job == id && CopyOf(t, x).message == m
  {
    var a, u := Quiet(cfg, s, id, m);
    CopiesStay(s, u, id, m);
    var b, v, k := Fetch(cfg, u, id, m);
    var c, w := Admit(cfg, v, slot);
    var d;
    d, t, x := Take(cfg, w, slot, k, id, m);
    ms := a + (b + (c + d));
    Both(Try(cfg), w, d, t, []);
    Both(Try(cfg), v, c, w, d);
    Both(Try(cfg), u, b, v, c + d);
    Both(Try(cfg), s, a, u, b + (c + d));
  }

  lemma CopiesStay(s: Sys, t: Sys, id: nat, m: nat)
    requires CopiesInv(s) && NothingStranded(s) && Obligation(s.c, id, m)
    requires t == s.(c := t.c) && t.c.db == s.c.db
    ensures CopiesInv(t) && (Pending(t.c, id, m) || Carried(t, id, m))
  {
    forall k | k in t.copies
      ensures CopyOk(t, k)
    {
      assert CopyOk(s, k);
    }
    forall x | x in t.consumers
      ensures HolderOk(t, x)
    {
      assert HolderOk(s, x);
    }
    if Carried(s, id, m) {
      var k :| k in s.copies && Carries(s, k, id, m);
      assert Carries(t, k, id, m);
    }
  }

  // From there the attempt starts, succeeds, and its message is acknowledged.
  lemma Serves(cfg: Config, s: Sys, x: nat, id: nat, m: nat, text: string, segments: string, path: string)
    returns (ms: seq<Move>, t: Sys)
    requires ValidConfig(cfg) && cfg.rabbit && Waiting(s.c, id, m) && In(s, x, Holding)
    requires CopyOf(s, x).job == id && CopyOf(s, x).message == m
    requires HasRoom(cfg, s.c.db, s.consumers[x].slot, s.c.clock)
    ensures |ms| == 8 && After(Try(cfg), s, ms) == Some(t) && Outcomes.Stored(t.c.db, id, text, segments, path)
    ensures x in t.consumers && t.consumers[x].phase.Idle?
  {
    var a, u, r := Ask(cfg, s, x);
    var b, v := Look(cfg, u, x, r);
    var c, w, lease := Start(cfg, v, x, r);
    var d, y := Succeed(cfg, w, x, id, lease, text, segments, path);
    t := Do(cfg, y, Protocol.Acknowledge(x));
    One(Try(cfg), y, Protocol.Acknowledge(x));
    ms := a + (b + (c + (d + [Protocol.Acknowledge(x)])));
    Both(Try(cfg), w, d, y, [Protocol.Acknowledge(x)]);
    Both(Try(cfg), v, c, w, d + [Protocol.Acknowledge(x)]);
    Both(Try(cfg), u, b, v, c + (d + [Protocol.Acknowledge(x)]));
    Both(Try(cfg), s, a, u, b + (c + (d + [Protocol.Acknowledge(x)])));
  }

  // No job is ever stuck: every run that leaves a job queued or running with attempts left has a
  // continuation of at most 15 moves, on any slot of any pool with capacity, that ends with the job
  // done, any given result stored, and its message acknowledged.
  lemma EveryJobCanFinish(cfg: Config, tr: seq<Sys>, ms: seq<Move>, id: nat, slot: Slot,
                          text: string, segments: string, path: string)
    returns (tr': seq<Sys>, ms': seq<Move>)
    requires SysRun(cfg, tr, ms) && Capacity(cfg, slot.worker) > 0
    requires id in tr[|ms|].c.db.jobs && Unfinished(tr[|ms|].c.db.jobs[id])
    requires tr[|ms|].c.db.jobs[id].attempts < cfg.maxAttempts
    ensures SysRun(cfg, tr', ms') && tr <= tr' && ms <= ms' && |ms'| <= |ms| + 15
    ensures Outcomes.Stored(tr'[|ms'|].c.db, id, text, segments, path)
  {
    RunKeeps(cfg, tr, ms, |ms|);
    var s := tr[|ms|];
    assert RowInv(cfg, s.c.clock, s.c.db.nextId, s.c.db.jobs[id]);
    var m := s.c.db.jobs[id].dispatch.value;
    var a, u, x := Reach(cfg, s, id, m, slot);
    var b, t := Serves(cfg, u, x, id, m, text, segments, path);
    Both(Try(cfg), s, a, u, b);
    tr', ms' := RunOn(cfg, tr, ms, a + b, t);
  }
}
