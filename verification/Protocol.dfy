// RabbitMQ mode end to end: the coordinator, the broker's message copies, the consumers and a
// network that may delay, repeat or lose every call and reply. Anything may crash between any
// two moves.
module Protocol {
  import opened Base
  import opened Rows
  import opened Queue
  import opened Lifecycle
  import opened Coordinator

  // Where a copy of a message is: in the jobs queue, in the delayed retry queue, or delivered
  // to a consumer that has not acknowledged it.
  datatype Place = InJobs | InRetry | Unacked(consumer: nat)

  datatype Copy = Copy(job: nat, message: nat, place: Place)

  // One pass through the loop of consume_slot.
  datatype Phase =
    | Idle
    | Holding
    | Calling(r: BeginRequest)
    | Working(lease: Lease)
    | Deferring
    | Settled

  datatype Consumer = Consumer(slot: Slot, phase: Phase, copy: nat)

  datatype Answer = Discarded | Refused | Begun(lease: Lease)

  // requests and answers hold every BeginAttempt call and reply there ever was, accepted every
  // (job, token) whose Complete or Fail was answered with accepted, confirmed every message
  // whose publication was confirmed. Loss and delay are the freedom never to read them.
  datatype Sys = Sys(
    c: Coord,
    copies: map<nat, Copy>,
    nextCopy: nat,
    consumers: map<nat, Consumer>,
    requests: set<BeginRequest>,
    answers: set<(BeginRequest, Answer)>,
    accepted: set<(nat, Lease)>,
    confirmed: set<nat>
  )

  datatype Move =
    | Serve(e: Step)
    | Publish(m: nat, locked: set<nat>, confirm: bool)
    | Connect(x: nat, slot: Slot)
    | Deliver(k: nat, x: nat)
    | Call(x: nat, delivery: nat)
    | Hear(x: nat, answer: Answer)
    | Finish(x: nat)
    | Defer(x: nat, confirm: bool)
    | Acknowledge(x: nat)
    | Disconnect(x: nat)
    | Requeue(k: nat, duplicate: bool)

  const BEGIN: Sys := Sys(START, map[], 0, map[], {}, {}, {}, {})

  predicate Engaged(s: Sys, x: nat) {
    x in s.consumers && !s.consumers[x].phase.Idle? && s.consumers[x].copy in s.copies
  }

  predicate In(s: Sys, x: nat, p: Phase) {
    Engaged(s, x) && s.consumers[x].phase == p
  }

  function CopyOf(s: Sys, x: nat): Copy
    requires Engaged(s, x)
  {
    s.copies[s.consumers[x].copy]
  }

  predicate CanMove(cfg: Config, s: Sys, mv: Move) {
    match mv
    case Serve(e) =>
      Enabled(cfg, s.c, e)
      && (e.BeginLook? ==> e.r in s.requests)
      && (e.MarkPublished? ==> e.m in s.confirmed)
    case Publish(m, locked, confirm) => IsNext(s.c.db, m, locked, s.c.clock)
    case Connect(x, slot) => x !in s.consumers
    case Deliver(k, x) =>
      k in s.copies && s.copies[k].place.InJobs? && x in s.consumers && s.consumers[x].phase.Idle?
    case Call(x, delivery) => In(s, x, Holding) && forall r :: r in s.requests ==> r.delivery != delivery
    case Hear(x, answer) =>
      Engaged(s, x) && s.consumers[x].phase.Calling? && (s.consumers[x].phase.r, answer) in s.answers
    case Finish(x) =>
      Engaged(s, x) && s.consumers[x].phase.Working?
      && (CopyOf(s, x).job, s.consumers[x].phase.lease) in s.accepted
    case Defer(x, confirm) => In(s, x, Deferring)
    case Acknowledge(x) => In(s, x, Settled)
    case Disconnect(x) => Engaged(s, x)
    case Requeue(k, duplicate) => k in s.copies && s.copies[k].place.InRetry?
  }

  // The disposition one coordinator step puts on the wire.
  function AnswerTo(cfg: Config, c: Coord, e: Step): Option<(BeginRequest, Answer)> {
    match e
    case BeginLook(r, now) =>
      (match Decide(cfg, c.db, r, c.clock)
       case Discard => Some((r, Discarded))
       case Exhaust => Some((r, Discarded))
       case Resume(lease) => Some((r, Begun(lease)))
       case Busy => Some((r, Refused))
       case Proceed => None)
    case BeginCapacity =>
      if c.lock.BeginRow? && !HasRoom(cfg, c.db, c.lock.r.slot, c.clock) then Some((c.lock.r, Refused)) else None
    case BeginWrite =>
      if c.lock.BeginReady? then Some((c.lock.r, Begun(FreshLease(c.db, c.lock.r.slot)))) else None
    case _ => None
  }

  function AcceptedBy(c: Coord, e: Step): Option<(nat, Lease)> {
    match e
    case CompleteJob(id, lease, now, text, segments, path) =>
      if CompleteAccepted(c.db, id, lease, now) then Some((id, lease)) else None
    case FailJob(id, lease, now, error, retryable) =>
      if FailAccepted(c.db, id, lease, now) then Some((id, lease)) else None
    case _ => None
  }

  function ToSet<T(==)>(o: Option<T>): set<T> {
    if o.Some? then {o.value} else {}
  }

  function Phased(s: Sys, x: nat, p: Phase): Sys
    requires x in s.consumers
  {
    s.(consumers := s.consumers[x := s.consumers[x].(phase := p)])
  }

  function Added(s: Sys, copy: Copy): Sys {
    s.(copies := s.copies[s.nextCopy := copy], nextCopy := s.nextCopy + 1)
  }

  function Do(cfg: Config, s: Sys, mv: Move): Sys
    requires CanMove(cfg, s, mv)
  {
    match mv
    case Serve(e) =>
      s.(c := Apply(cfg, s.c, e), answers := s.answers + ToSet(AnswerTo(cfg, s.c, e)),
      accepted := s.accepted + ToSet(AcceptedBy(s.c, e)))
    case Publish(m, locked, confirm) =>
      Added(s, Copy(s.c.db.outbox[m].job, m, InJobs))
      .(confirmed := if confirm then s.confirmed + {m} else s.confirmed)
    case Connect(x, slot) => s.(consumers := s.consumers[x := Consumer(slot, Idle, 0)])
    case Deliver(k, x) =>
      s.(copies := s.copies[k := s.copies[k].(place := Unacked(x))],
      consumers := s.consumers[x := s.consumers[x].(phase := Holding, copy := k)])
    case Call(x, delivery) =>
      var r := BeginRequest(s.consumers[x].slot, CopyOf(s, x).job, CopyOf(s, x).message, delivery);
      Phased(s, x, Calling(r)).(requests := s.requests + {r})
    case Hear(x, answer) =>
      Phased(s, x, match answer
                   case Discarded => Settled
                   case Refused => Deferring
                   case Begun(lease) => Working(lease))
    case Finish(x) => Phased(s, x, Settled)
    case Defer(x, confirm) =>
      var t := Added(s, CopyOf(s, x).(place := InRetry));
      if confirm then Phased(t, x, Settled) else t
    case Acknowledge(x) =>
      Phased(s, x, Idle).(copies := s.copies - {s.consumers[x].copy})
    case Disconnect(x) =>
      var k := s.consumers[x].copy;
      Phased(s, x, Idle).(copies := s.copies[k := s.copies[k].(place := InJobs)])
    case Requeue(k, duplicate) =>
      if duplicate then Added(s, s.copies[k].(place := InJobs))
      else s.(copies := s.copies[k := s.copies[k].(place := InJobs)])
  }

  predicate SysRun(cfg: Config, tr: seq<Sys>, ms: seq<Move>) {
    && ValidConfig(cfg) && cfg.rabbit && |tr| == |ms| + 1 && tr[0] == BEGIN
    && forall i :: 0 <= i < |ms| ==> CanMove(cfg, tr[i], ms[i]) && tr[i + 1] == Do(cfg, tr[i], ms[i])
  }

  // ----- obligations -----

  // This message is what a queued or running job is waiting for.
  predicate Obligation(c: Coord, job: nat, message: nat) {
    job in c.db.jobs && Unfinished(c.db.jobs[job]) && c.db.jobs[job].dispatch == Some(message)
  }

  // Once a message is no job's obligation it never becomes one again.
  lemma ReleasedForGood(cfg: Config, c: Coord, e: Step, job: nat, message: nat)
    requires ValidConfig(cfg) && cfg.rabbit && Inv(cfg, c) && Enabled(cfg, c, e)
    requires !Obligation(c, job, message) && message < c.db.nextId
    ensures !Obligation(Apply(cfg, c, e), job, message)
  {
    var t := Apply(cfg, c, e);
    StepRows(cfg, c, e, job);
    if job in c.db.jobs && job in t.db.jobs && c.db.jobs[job] != t.db.jobs[job] {
      ReleasedRow(cfg, ScopeOf(c, e, t, job), c.db.jobs[job], t.db.jobs[job], message);
    }
  }

  lemma ReleasedRow(cfg: Config, sc: Scope, o: Job, n: Job, message: nat)
    requires cfg.rabbit && RowUpdate(cfg, sc, o, n) && message < sc.lo
    requires !(Unfinished(o) && o.dispatch == Some(message))
    ensures !(Unfinished(n) && n.dispatch == Some(message))
  {
    if Downloads(o, n) || Interrupts(o, n) || Queues(cfg, sc, o, n) {
    } else if Starts(cfg, sc, o, n) || Renews(cfg, sc, o, n) {
    } else if Completes(sc, o, n) || FailsForGood(sc, o, n) {
    } else if FailsAndRetries(cfg, sc, o, n) {
    } else if Cancels(sc, o, n) || Exhausts(sc, o, n) {
    } else {
      assert Acknowledges(sc, o, n) || Redispatches(sc, o, n);
    }
  }

  // Every message older than this token is no longer an obligation of the job.
  predicate Superseded(c: Coord, job: nat, lease: Lease) {
    lease.Lease? && lease.serial < c.db.nextId
    && (job in c.db.jobs && Unfinished(c.db.jobs[job]) ==>
          c.db.jobs[job].dispatch.Some? && c.db.jobs[job].dispatch.value > lease.serial)
    && (job in c.db.jobs ==> !Uploading(c.db.jobs[job]))
    && job < c.db.nextId
  }

  lemma SupersededRow(cfg: Config, sc: Scope, o: Job, n: Job, serial: nat)
    requires cfg.rabbit && RowUpdate(cfg, sc, o, n) && serial < sc.lo
    requires !Uploading(o) && (Unfinished(o) ==> o.dispatch.Some? && o.dispatch.value > serial)
    ensures !Uploading(n) && (Unfinished(n) ==> n.dispatch.Some? && n.dispatch.value > serial)
  {
    if Starts(cfg, sc, o, n) || Renews(cfg, sc, o, n) {
    } else if Completes(sc, o, n) || FailsForGood(sc, o, n) {
    } else if FailsAndRetries(cfg, sc, o, n) {
    } else if Cancels(sc, o, n) || Exhausts(sc, o, n) {
    } else {
      assert Acknowledges(sc, o, n) || Redispatches(sc, o, n);
    }
  }

  lemma SupersededStays(cfg: Config, c: Coord, e: Step, job: nat, lease: Lease)
    requires ValidConfig(cfg) && cfg.rabbit && Inv(cfg, c) && Enabled(cfg, c, e) && Superseded(c, job, lease)
    ensures Superseded(Apply(cfg, c, e), job, lease)
  {
    var t := Apply(cfg, c, e);
    StepRows(cfg, c, e, job);
    if job in c.db.jobs && job in t.db.jobs && c.db.jobs[job] != t.db.jobs[job] {
      SupersededRow(cfg, ScopeOf(c, e, t, job), c.db.jobs[job], t.db.jobs[job], lease.serial);
    }
  }

  // An accepted Complete or Fail supersedes the message of its own attempt.
  lemma AcceptedSupersedes(cfg: Config, c: Coord, e: Step)
    requires ValidConfig(cfg) && cfg.rabbit && Inv(cfg, c) && Enabled(cfg, c, e) && AcceptedBy(c, e).Some?
    ensures Superseded(Apply(cfg, c, e), AcceptedBy(c, e).value.0, AcceptedBy(c, e).value.1)
  {
  }

  // A discard answer is only given for a message that is no obligation any more.
  lemma DiscardMeansReleased(cfg: Config, c: Coord, e: Step)
    requires ValidConfig(cfg) && cfg.rabbit && Inv(cfg, c) && Enabled(cfg, c, e)
    requires AnswerTo(cfg, c, e).Some? && AnswerTo(cfg, c, e).value.1.Discarded?
    ensures var r := AnswerTo(cfg, c, e).value.0;
            !Obligation(Apply(cfg, c, e), r.job, r.message)
  {
  }

  // The token of an attempt is younger than the message that started it.
  lemma BegunAfterMessage(cfg: Config, c: Coord, e: Step)
    requires ValidConfig(cfg) && cfg.rabbit && Inv(cfg, c) && Enabled(cfg, c, e)
    requires AnswerTo(cfg, c, e).Some? && AnswerTo(cfg, c, e).value.1.Begun?
    ensures var (r, a) := AnswerTo(cfg, c, e).value;
            a.lease.Lease? && r.message < a.lease.serial < Apply(cfg, c, e).db.nextId
  {
  }

  // ----- the coordinator inside an end-to-end run -----

  function ServedSteps(ms: seq<Move>): seq<Step> {
    if ms == [] then [] else
      var last := ms[|ms| - 1];
      ServedSteps(ms[..|ms| - 1]) + if last.Serve? then [last.e] else []
  }

  lemma RunExtends(cfg: Config, cs: seq<Coord>, es: seq<Step>, e: Step)
    requires Run(cfg, cs, es) && Enabled(cfg, cs[|es|], e)
    ensures Run(cfg, cs + [Apply(cfg, cs[|es|], e)], es + [e])
  {
  }

  lemma MoveServes(cfg: Config, s: Sys, mv: Move)
    requires CanMove(cfg, s, mv)
    ensures if mv.Serve? then Enabled(cfg, s.c, mv.e) && Do(cfg, s, mv).c == Apply(cfg, s.c, mv.e)
            else Do(cfg, s, mv).c == s.c
  {
  }

  // Leaving out the broker's and the consumers' moves turns an end-to-end run into a run of the
  // coordinator that ends in the same database: all its guarantees hold end to end.
  lemma {:induction false} CoordinatorRun(cfg: Config, tr: seq<Sys>, ms: seq<Move>)
    returns (cs: seq<Coord>)
    requires SysRun(cfg, tr, ms)
    ensures Run(cfg, cs, ServedSteps(ms)) && cs[|ServedSteps(ms)|] == tr[|ms|].c
    decreases |ms|
  {
    if ms == [] {
      cs := [START];
    } else {
      var n := |ms| - 1;
      assert forall i :: 0 <= i < n ==> ms[..n][i] == ms[i];
      cs := CoordinatorRun(cfg, tr[..n + 1], ms[..n]);
      var s, mv := tr[n], ms[n];
      assert CanMove(cfg, s, mv) && tr[n + 1] == Do(cfg, s, mv);
      MoveServes(cfg, s, mv);
      if mv.Serve? {
        RunExtends(cfg, cs, ServedSteps(ms[..n]), mv.e);
        cs := cs + [Apply(cfg, s.c, mv.e)];
      }
    }
  }
}
