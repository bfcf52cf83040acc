// One delivery per attempt: begin_attempt repeats its answer only to the delivery and slot that
// started the attempt, so no two calls and no two consumers ever hold the same token.
module Ownership {
  import opened Base
  import opened Rows
  import opened Queue
  import opened Lifecycle
  import opened Coordinator
  import opened Protocol
  import opened Delivery

  // ----- tokens and deliveries of running rows -----

  predicate Holds(db: Db, id: nat, lease: Lease) {
    id in db.jobs && db.jobs[id].status.Running? && db.jobs[id].lease == lease
  }

  lemma DeliveryKept(cfg: Config, sc: Scope, o: Job, n: Job)
    requires RowUpdate(cfg, sc, o, n) && !Starts(cfg, sc, o, n)
    ensures n.delivery == o.delivery
  {
    if Downloads(o, n) || Interrupts(o, n) || Queues(cfg, sc, o, n) {
    } else if Renews(cfg, sc, o, n) || Redispatches(sc, o, n) {
    } else if Completes(sc, o, n) || FailsForGood(sc, o, n) {
    } else if FailsAndRetries(cfg, sc, o, n) {
    } else {
      assert Cancels(sc, o, n) || Exhausts(sc, o, n) || Acknowledges(sc, o, n);
    }
  }

  // Apart from a start, a token that is held after a step was held before it, for the same delivery.
  lemma HeldBefore(cfg: Config, c: Coord, e: Step, id: nat, lease: Lease)
    requires ValidConfig(cfg) && Inv(cfg, c) && Enabled(cfg, c, e) && !StartsJob(c, e, id)
    requires Holds(Apply(cfg, c, e).db, id, lease)
    ensures Holds(c.db, id, lease) && Apply(cfg, c, e).db.jobs[id].delivery == c.db.jobs[id].delivery
  {
    var t := Apply(cfg, c, e);
    StepRows(cfg, c, e, id);
    if c.db.jobs[id] != t.db.jobs[id] {
      OnlyStartsIssue(cfg, ScopeOf(c, e, t, id), c.db.jobs[id], t.db.jobs[id]);
      DeliveryKept(cfg, ScopeOf(c, e, t, id), c.db.jobs[id], t.db.jobs[id]);
    }
  }

  // A start gives a new token to the delivery that asked for it.
  lemma StartHolds(cfg: Config, c: Coord, e: Step, id: nat)
    requires ValidConfig(cfg) && cfg.rabbit && Inv(cfg, c) && Enabled(cfg, c, e) && StartsJob(c, e, id)
    ensures e.BeginWrite? && c.lock.BeginReady? && id == c.lock.r.job
    ensures var t := Apply(cfg, c, e);
            id in t.db.jobs && t.db.jobs[id].lease == FreshLease(c.db, c.lock.r.slot)
            && t.db.jobs[id].delivery == Some(c.lock.r.delivery)
  {
  }

  ghost predicate OneHolder(db: Db) {
    forall a, b, lease :: Holds(db, a, lease) && Holds(db, b, lease) ==> a == b
  }

  lemma OldTokens(cfg: Config, c: Coord, id: nat, lease: Lease)
    requires Inv(cfg, c) && Holds(c.db, id, lease)
    ensures lease.Lease? && lease.serial < c.db.nextId
  {
    assert RowInv(cfg, c.clock, c.db.nextId, c.db.jobs[id]);
  }

  lemma OneHolderKept(cfg: Config, c: Coord, e: Step)
    requires ValidConfig(cfg) && cfg.rabbit && Inv(cfg, c) && Enabled(cfg, c, e) && OneHolder(c.db)
    ensures OneHolder(Apply(cfg, c, e).db)
  {
    var t := Apply(cfg, c, e);
    forall a, b, lease | Holds(t.db, a, lease) && Holds(t.db, b, lease)
      ensures a == b
    {
      if StartsJob(c, e, a) {
        StartHolds(cfg, c, e, a);
      } else {
        HeldBefore(cfg, c, e, a, lease);
        OldTokens(cfg, c, a, lease);
      }
      if StartsJob(c, e, b) {
        StartHolds(cfg, c, e, b);
      } else {
        HeldBefore(cfg, c, e, b, lease);
        OldTokens(cfg, c, b, lease);
      }
    }
  }

  // ----- answers -----

  predicate Distinct(requests: set<BeginRequest>) {
    forall a, b :: a in requests && b in requests && a.delivery == b.delivery ==> a == b
  }

  // The answered call is the delivery on the row that holds the token.
  ghost predicate Matches(db: Db, p: (BeginRequest, Answer)) {
    p.1.Begun? ==> forall id :: Holds(db, id, p.1.lease) ==> db.jobs[id].delivery == Some(p.0.delivery)
  }

  predicate SameCall(p: (BeginRequest, Answer), q: (BeginRequest, Answer)) {
    p.1.Begun? && p.1 == q.1 ==> p.0 == q.0
  }

  ghost predicate AnswersOwned(s: Sys) {
    && Distinct(s.requests) && OneHolder(s.c.db)
    && (s.c.lock.BeginRow? || s.c.lock.BeginReady? ==> s.c.lock.r in s.requests)
    && (forall p :: p in s.answers ==> p.0 in s.requests && Matches(s.c.db, p))
    && (forall p, q :: p in s.answers && q in s.answers ==> SameCall(p, q))
  }

  lemma OldMatch(cfg: Config, s: Sys, e: Step, p: (BeginRequest, Answer))
    requires ValidConfig(cfg) && cfg.rabbit && SysInv(cfg, s) && CanMove(cfg, s, Serve(e))
    requires p in s.answers && Matches(s.c.db, p)
    ensures Matches(Apply(cfg, s.c, e).db, p)
  {
    assert AnswerOk(s.c, p.0, p.1);
    if p.1.Begun? {
      forall id | Holds(Apply(cfg, s.c, e).db, id, p.1.lease)
        ensures Apply(cfg, s.c, e).db.jobs[id].delivery == Some(p.0.delivery)
      {
        if StartsJob(s.c, e, id) {
          StartHolds(cfg, s.c, e, id);
        } else {
          HeldBefore(cfg, s.c, e, id, p.1.lease);
        }
      }
    }
  }

  // What an answer with a token says about the row behind it.
  lemma AnsweredRow(cfg: Config, c: Coord, e: Step)
    requires ValidConfig(cfg) && cfg.rabbit && Inv(cfg, c) && Enabled(cfg, c, e)
    requires AnswerTo(cfg, c, e).Some? && AnswerTo(cfg, c, e).value.1.Begun?
    ensures var (r, a) := AnswerTo(cfg, c, e).value;
            var t := Apply(cfg, c, e);
            && (if e.BeginLook? then r == e.r && t == c else c.lock.BeginReady? && r == c.lock.r)
            && Holds(t.db, r.job, a.lease) && t.db.jobs[r.job].delivery == Some(r.delivery)
            && (e.BeginLook? || (a.lease.Lease? && a.lease.serial == c.db.nextId))
  {
  }

  lemma NewAnswer(cfg: Config, s: Sys, e: Step)
    requires ValidConfig(cfg) && cfg.rabbit && SysInv(cfg, s) && CanMove(cfg, s, Serve(e)) && AnswersOwned(s)
    requires AnswerTo(cfg, s.c, e).Some? && AnswerTo(cfg, s.c, e).value.1.Begun?
    ensures var p := AnswerTo(cfg, s.c, e).value;
            && p.0 in s.requests && Matches(Apply(cfg, s.c, e).db, p)
            && forall q :: q in s.answers ==> SameCall(p, q) && SameCall(q, p)
  {
    var p := AnswerTo(cfg, s.c, e).value;
    AnsweredRow(cfg, s.c, e);
    OneHolderKept(cfg, s.c, e);
    forall q | q in s.answers
      ensures SameCall(p, q) && SameCall(q, p)
    {
      assert AnswerOk(s.c, q.0, q.1) && Matches(s.c.db, q);
    }
  }

  lemma OtherAnswer(cfg: Config, s: Sys, e: Step)
    requires CanMove(cfg, s, Serve(e)) && AnswerTo(cfg, s.c, e).Some?
    requires s.c.lock.BeginRow? || s.c.lock.BeginReady? ==> s.c.lock.r in s.requests
    ensures AnswerTo(cfg, s.c, e).value.0 in s.requests
  {
  }

  lemma ServeOwned(cfg: Config, s: Sys, e: Step)
    requires ValidConfig(cfg) && cfg.rabbit && SysInv(cfg, s) && CanMove(cfg, s, Serve(e)) && AnswersOwned(s)
    ensures AnswersOwned(Do(cfg, s, Serve(e)))
  {
    var t := Do(cfg, s, Serve(e));
    OneHolderKept(cfg, s.c, e);
    LockedRequest(cfg, s, e);
    var new' := AnswerTo(cfg, s.c, e);
    if new'.Some? {
      OtherAnswer(cfg, s, e);
      if new'.value.1.Begun? {
        NewAnswer(cfg, s, e);
      }
    }
    forall p | p in t.answers
      ensures p.0 in t.requests && Matches(t.c.db, p)
    {
      if p in s.answers {
        OldMatch(cfg, s, e, p);
      }
    }
  }

  // ----- consumers -----

  predicate Asking(s: Sys, x: nat, r: BeginRequest) {
    x in s.consumers && s.consumers[x].phase == Calling(r)
  }

  predicate WorksOn(s: Sys, x: nat, lease: Lease) {
    x in s.consumers && s.consumers[x].phase == Phase.Working(lease)
  }

  // Every call belongs to one consumer. Whoever works on a token got it as an answer, and the call
  // that was answered is nobody's any more.
  ghost predicate ConsumersOwned(s: Sys) {
    && (forall x, r :: Asking(s, x, r) ==> r in s.requests)
    && (forall x, y, r :: Asking(s, x, r) && Asking(s, y, r) ==> x == y)
    && (forall x, lease :: WorksOn(s, x, lease) ==> exists r :: (r, Begun(lease)) in s.answers)
    && (forall x, y, lease, r ::
          WorksOn(s, x, lease) && (r, Begun(lease)) in s.answers ==> !Asking(s, y, r))
    && (forall x, y, lease :: WorksOn(s, x, lease) && WorksOn(s, y, lease) ==> x == y)
  }

  lemma ServeConsumers(cfg: Config, s: Sys, e: Step)
    requires CanMove(cfg, s, Serve(e)) && ConsumersOwned(s) && AnswersOwned(Do(cfg, s, Serve(e)))
    ensures ConsumersOwned(Do(cfg, s, Serve(e)))
  {
    var t := Do(cfg, s, Serve(e));
    assert t.consumers == s.consumers && t.requests == s.requests;
    forall x, lease | WorksOn(t, x, lease)
      ensures exists r :: (r, Begun(lease)) in t.answers
    {
      assert WorksOn(s, x, lease);
      var r :| (r, Begun(lease)) in s.answers;
      assert (r, Begun(lease)) in t.answers;
    }
    forall x, y, lease, r | WorksOn(t, x, lease) && (r, Begun(lease)) in t.answers
      ensures !Asking(t, y, r)
    {
      assert WorksOn(s, x, lease);
      var q :| (q, Begun(lease)) in s.answers;
      assert SameCall((q, Begun(lease)), (r, Begun(lease)));
      assert !Asking(s, y, q);
    }
    assert forall x, r :: Asking(t, x, r) ==> Asking(s, x, r);
    assert forall x, lease :: WorksOn(t, x, lease) ==> WorksOn(s, x, lease);
  }

  // Moves of the broker alone.
  predicate Leaves(mv: Move) {
    mv.Publish? || mv.Requeue?
  }

  // One consumer asks something new or turns to something that is neither a call nor a token.
  lemma AskConsumers(s: Sys, t: Sys, x: nat)
    requires ConsumersOwned(s) && AnswersOwned(s)
    requires t.answers == s.answers && s.requests <= t.requests
    requires x in t.consumers && t.consumers == s.consumers[x := t.consumers[x]]
    requires !t.consumers[x].phase.Working?
    requires t.consumers[x].phase.Calling? ==>
               t.consumers[x].phase.r in t.requests && t.consumers[x].phase.r !in s.requests
    ensures ConsumersOwned(t)
  {
    forall y, r | Asking(t, y, r)
      ensures r in t.requests && (y != x ==> Asking(s, y, r))
    {
      assert y != x ==> Asking(s, y, r);
    }
    forall y, lease | WorksOn(t, y, lease)
      ensures y != x && WorksOn(s, y, lease)
    {
    }
  }

  lemma OtherConsumers(cfg: Config, s: Sys, mv: Move)
    requires AnswersOwned(s) && ConsumersOwned(s) && CanMove(cfg, s, mv)
    requires !mv.Serve? && !Leaves(mv) && !(mv.Hear? && mv.answer.Begun?)
    ensures ConsumersOwned(Do(cfg, s, mv))
  {
    AskConsumers(s, Do(cfg, s, mv), mv.x);
  }

  lemma LeavingConsumers(cfg: Config, s: Sys, mv: Move)
    requires ConsumersOwned(s) && CanMove(cfg, s, mv) && Leaves(mv)
    ensures ConsumersOwned(Do(cfg, s, mv))
  {
    var t := Do(cfg, s, mv);
    assert t.consumers == s.consumers && t.requests == s.requests && t.answers == s.answers;
    assert forall x, r :: Asking(t, x, r) <==> Asking(s, x, r);
    assert forall x, lease :: WorksOn(t, x, lease) <==> WorksOn(s, x, lease);
  }

  lemma HearConsumers(cfg: Config, s: Sys, x: nat, answer: Answer)
    requires CanMove(cfg, s, Hear(x, answer)) && answer.Begun? && ConsumersOwned(s) && AnswersOwned(s)
    ensures ConsumersOwned(Do(cfg, s, Hear(x, answer)))
  {
    var t := Do(cfg, s, Hear(x, answer));
    var r := s.consumers[x].phase.r;
    assert Asking(s, x, r) && (r, Begun(answer.lease)) in s.answers;
    assert forall y, q :: Asking(t, y, q) ==> y != x && Asking(s, y, q);
    assert forall y, lease :: WorksOn(t, y, lease) && y != x ==> WorksOn(s, y, lease);
    forall y, z, lease, q | WorksOn(t, y, lease) && (q, Begun(lease)) in t.answers
      ensures !Asking(t, z, q)
    {
      if y == x {
        assert SameCall((r, Begun(lease)), (q, Begun(lease)));
      }
    }
    forall y, z, lease | WorksOn(t, y, lease) && WorksOn(t, z, lease)
      ensures y == z
    {
      assert y != x && z != x ==> WorksOn(s, y, lease) && WorksOn(s, z, lease);
    }
  }

  // ----- every run -----

  ghost predicate Owned(cfg: Config, s: Sys) {
    SysInv(cfg, s) && AnswersOwned(s) && ConsumersOwned(s)
  }

  lemma CallOwned(cfg: Config, s: Sys, mv: Move)
    requires Owned(cfg, s) && CanMove(cfg, s, mv) && !mv.Serve?
    ensures AnswersOwned(Do(cfg, s, mv))
  {
    var t := Do(cfg, s, mv);
    assert t.c == s.c && t.answers == s.answers && s.requests <= t.requests;
  }

  lemma OwnedKept(cfg: Config, s: Sys, mv: Move)
    requires ValidConfig(cfg) && cfg.rabbit && Owned(cfg, s) && CanMove(cfg, s, mv)
    ensures Owned(cfg, Do(cfg, s, mv))
  {
    MoveKeeps(cfg, s, mv);
    if mv.Serve? {
      ServeOwned(cfg, s, mv.e);
      ServeConsumers(cfg, s, mv.e);
    } else {
      CallOwned(cfg, s, mv);
      if mv.Hear? && mv.answer.Begun? {
        HearConsumers(cfg, s, mv.x, mv.answer);
      } else if Leaves(mv) {
        LeavingConsumers(cfg, s, mv);
      } else {
        OtherConsumers(cfg, s, mv);
      }
    }
  }

  lemma {:induction false} RunOwned(cfg: Config, tr: seq<Sys>, ms: seq<Move>, k: nat)
    requires SysRun(cfg, tr, ms) && k < |tr|
    ensures Owned(cfg, tr[k])
  {
    if k > 0 {
      RunOwned(cfg, tr, ms, k - 1);
      OwnedKept(cfg, tr[k - 1], ms[k - 1]);
    }
  }

  // Of all BeginAttempt calls of a run, repeated and delayed ones included, only one is ever answered
  // with a given token.
  lemma OneCallPerToken(cfg: Config, tr: seq<Sys>, ms: seq<Move>, k: nat, a: BeginRequest, b: BeginRequest, lease: Lease)
    requires SysRun(cfg, tr, ms) && k < |tr|
    requires (a, Begun(lease)) in tr[k].answers && (b, Begun(lease)) in tr[k].answers
    ensures a == b
  {
    RunOwned(cfg, tr, ms, k);
    assert SameCall((a, Begun(lease)), (b, Begun(lease)));
  }

  // So no two consumers ever work on the same attempt.
  lemma OneConsumerPerToken(cfg: Config, tr: seq<Sys>, ms: seq<Move>, k: nat, x: nat, y: nat, lease: Lease)
    requires SysRun(cfg, tr, ms) && k < |tr| && WorksOn(tr[k], x, lease) && WorksOn(tr[k], y, lease)
    ensures x == y
  {
    RunOwned(cfg, tr, ms, k);
  }
}
