// No stranded work: in every reachable state each queued or running job's current message is
// unpublished in the outbox, or a copy of it is in a queue or with a consumer that will not
// acknowledge it away.
module Delivery {
  import opened Base
  import opened Rows
  import opened Queue
  import opened Lifecycle
  import opened Coordinator
  import opened Protocol

  predicate SettledBy(s: Sys, x: nat) {
    x in s.consumers && s.consumers[x].phase.Settled?
  }

  // A copy nobody is about to acknowledge.
  predicate Safe(s: Sys, k: nat) {
    k in s.copies && (s.copies[k].place.Unacked? ==> !SettledBy(s, s.copies[k].place.consumer))
  }

  predicate Carries(s: Sys, k: nat, job: nat, message: nat) {
    Safe(s, k) && s.copies[k].job == job && s.copies[k].message == message
  }

  predicate Carried(s: Sys, job: nat, message: nat) {
    exists k :: k in s.copies && Carries(s, k, job, message)
  }

  predicate Pending(c: Coord, job: nat, message: nat) {
    message in c.db.outbox && c.db.outbox[message].job == job && c.db.outbox[message].publishedAt.None?
  }

  // ----- the invariant -----

  // Copies and the consumers that hold them agree.
  predicate CopyOk(s: Sys, k: nat)
    requires k in s.copies
  {
    && k < s.nextCopy && s.copies[k].message < s.c.db.nextId
    && (s.copies[k].place.Unacked? ==>
         var x := s.copies[k].place.consumer;
         x in s.consumers && !s.consumers[x].phase.Idle? && s.consumers[x].copy == k)
  }

  predicate HolderOk(s: Sys, x: nat)
    requires x in s.consumers
  {
    !s.consumers[x].phase.Idle? ==>
      s.consumers[x].copy in s.copies && s.copies[s.consumers[x].copy].place == Unacked(x)
  }

  predicate CopiesInv(s: Sys) {
    (forall k :: k in s.copies ==> CopyOk(s, k)) && (forall x :: x in s.consumers ==> HolderOk(s, x))
  }

  predicate RequestInv(s: Sys) {
    forall r :: r in s.requests ==> r.message < s.c.db.nextId
  }

  predicate AnswerOk(c: Coord, r: BeginRequest, a: Answer) {
    r.message < c.db.nextId
    && (a.Discarded? ==> !Obligation(c, r.job, r.message))
    && (a.Begun? ==> a.lease.Lease? && r.message < a.lease.serial < c.db.nextId)
  }

  predicate AnswersInv(s: Sys) {
    && (forall p :: p in s.answers ==> AnswerOk(s.c, p.0, p.1))
    && (s.c.lock.BeginRow? || s.c.lock.BeginReady? ==> s.c.lock.r.message < s.c.db.nextId)
  }

  predicate AcceptedInv(s: Sys) {
    forall p :: p in s.accepted ==> Superseded(s.c, p.0, p.1)
  }

  // What a consumer believes about the copy it holds.
  predicate PhaseOk(s: Sys, x: nat)
    requires Engaged(s, x)
  {
    var copy := CopyOf(s, x);
    match s.consumers[x].phase
    case Calling(r) => r.job == copy.job && r.message == copy.message
    case Working(lease) => lease.Lease? && copy.message < lease.serial
    case Settled => Obligation(s.c, copy.job, copy.message) ==> Carried(s, copy.job, copy.message)
    case _ => true
  }

  predicate PhasesInv(s: Sys) {
    forall x :: x in s.consumers && Engaged(s, x) ==> PhaseOk(s, x)
  }

  predicate ConfirmedInv(s: Sys) {
    forall m :: m in s.confirmed ==>
      m < s.c.db.nextId
      && (m in s.c.db.outbox && Obligation(s.c, s.c.db.outbox[m].job, m) ==> Carried(s, s.c.db.outbox[m].job, m))
  }

  predicate NothingStranded(s: Sys) {
    forall id :: id in s.c.db.jobs && Unfinished(s.c.db.jobs[id]) ==>
      s.c.db.jobs[id].dispatch.Some?
      && (Pending(s.c, id, s.c.db.jobs[id].dispatch.value) || Carried(s, id, s.c.db.jobs[id].dispatch.value))
  }

  predicate SysInv(cfg: Config, s: Sys) {
    Inv(cfg, s.c) && CopiesInv(s) && RequestInv(s) && AnswersInv(s) && AcceptedInv(s)
    && PhasesInv(s) && ConfirmedInv(s) && NothingStranded(s)
  }

  // ----- coordinator moves: copies and consumers stay, obligations only go or start pending -----

  lemma ServeCarries(cfg: Config, s: Sys, e: Step, job: nat, message: nat)
    requires CanMove(cfg, s, Serve(e))
    ensures Carried(Do(cfg, s, Serve(e)), job, message) <==> Carried(s, job, message)
  {
    var t := Do(cfg, s, Serve(e));
    assert forall k :: k in s.copies ==> (Carries(t, k, job, message) <==> Carries(s, k, job, message));
  }

  lemma ServeAnswers(cfg: Config, s: Sys, e: Step)
    requires ValidConfig(cfg) && cfg.rabbit && SysInv(cfg, s) && CanMove(cfg, s, Serve(e))
    ensures AnswersInv(Do(cfg, s, Serve(e)))
  {
    var t := Do(cfg, s, Serve(e));
    Forward(cfg, s.c, e);
    forall p | p in t.answers
      ensures AnswerOk(t.c, p.0, p.1)
    {
      if p in s.answers {
        assert AnswerOk(s.c, p.0, p.1);
        if p.1.Discarded? {
          ReleasedForGood(cfg, s.c, e, p.0.job, p.0.message);
        }
      } else {
        assert AnswerTo(cfg, s.c, e) == Some(p);
        if p.1.Discarded? {
          DiscardMeansReleased(cfg, s.c, e);
        } else if p.1.Begun? {
          BegunAfterMessage(cfg, s.c, e);
        }
        AnsweredRequest(cfg, s, e);
      }
    }
    LockedRequest(cfg, s, e);
  }

  lemma AnsweredRequest(cfg: Config, s: Sys, e: Step)
    requires SysInv(cfg, s) && CanMove(cfg, s, Serve(e)) && AnswerTo(cfg, s.c, e).Some?
    ensures AnswerTo(cfg, s.c, e).value.0.message < s.c.db.nextId
  {
  }

  lemma LockedRequest(cfg: Config, s: Sys, e: Step)
    requires ValidConfig(cfg) && SysInv(cfg, s) && CanMove(cfg, s, Serve(e))
    ensures var t := Apply(cfg, s.c, e);
            t.lock.BeginRow? || t.lock.BeginReady? ==>
              t.lock.r.message < s.c.db.nextId
              && (t.lock.r in s.requests
                  || ((s.c.lock.BeginRow? || s.c.lock.BeginReady?) && t.lock.r == s.c.lock.r))
  {
  }

  lemma ServeAccepted(cfg: Config, s: Sys, e: Step)
    requires ValidConfig(cfg) && cfg.rabbit && SysInv(cfg, s) && CanMove(cfg, s, Serve(e))
    ensures AcceptedInv(Do(cfg, s, Serve(e)))
  {
    var t := Do(cfg, s, Serve(e));
    forall p | p in t.accepted
      ensures Superseded(t.c, p.0, p.1)
    {
      if p in s.accepted {
        SupersededStays(cfg, s.c, e, p.0, p.1);
      } else {
        AcceptedSupersedes(cfg, s.c, e);
      }
    }
  }

  lemma ServePhases(cfg: Config, s: Sys, e: Step)
    requires ValidConfig(cfg) && cfg.rabbit && SysInv(cfg, s) && CanMove(cfg, s, Serve(e))
    ensures PhasesInv(Do(cfg, s, Serve(e))) && CopiesInv(Do(cfg, s, Serve(e)))
  {
    var t := Do(cfg, s, Serve(e));
    Forward(cfg, s.c, e);
    forall x | x in t.consumers && Engaged(t, x)
      ensures PhaseOk(t, x)
    {
      assert Engaged(s, x) && PhaseOk(s, x);
      var copy := CopyOf(s, x);
      ServeCarries(cfg, s, e, copy.job, copy.message);
      if !Obligation(s.c, copy.job, copy.message) {
        ReleasedForGood(cfg, s.c, e, copy.job, copy.message);
      }
    }
  }

  lemma ServeConfirmed(cfg: Config, s: Sys, e: Step)
    requires ValidConfig(cfg) && cfg.rabbit && SysInv(cfg, s) && CanMove(cfg, s, Serve(e))
    ensures ConfirmedInv(Do(cfg, s, Serve(e)))
  {
    var t := Do(cfg, s, Serve(e));
    Forward(cfg, s.c, e);
    forall m | m in t.confirmed && m in t.c.db.outbox && Obligation(t.c, t.c.db.outbox[m].job, m)
      ensures Carried(t, t.c.db.outbox[m].job, m)
    {
      var job := t.c.db.outbox[m].job;
      StepOutbox(cfg, s.c, e, job, m);
      assert m in s.c.db.outbox && s.c.db.outbox[m].job == job;
      if !Obligation(s.c, job, m) {
        ReleasedForGood(cfg, s.c, e, job, m);
      }
      ServeCarries(cfg, s, e, job, m);
    }
  }

  lemma ServeStrandsNothing(cfg: Config, s: Sys, e: Step)
    requires ValidConfig(cfg) && cfg.rabbit && SysInv(cfg, s) && CanMove(cfg, s, Serve(e))
    ensures NothingStranded(Do(cfg, s, Serve(e)))
  {
    var t := Do(cfg, s, Serve(e));
    InvKept(cfg, s.c, e);
    forall id | id in t.c.db.jobs && Unfinished(t.c.db.jobs[id])
      ensures t.c.db.jobs[id].dispatch.Some?
      ensures Pending(t.c, id, t.c.db.jobs[id].dispatch.value) || Carried(t, id, t.c.db.jobs[id].dispatch.value)
    {
      assert RowInv(cfg, t.c.clock, t.c.db.nextId, t.c.db.jobs[id]);
      var m := t.c.db.jobs[id].dispatch.value;
      StepOutbox(cfg, s.c, e, id, m);
      ServeCarries(cfg, s, e, id, m);
      if id in s.c.db.jobs && s.c.db.jobs[id].dispatch == Some(m) {
        if !Obligation(s.c, id, m) {
          assert RowInv(cfg, s.c.clock, s.c.db.nextId, s.c.db.jobs[id]);
          ReleasedForGood(cfg, s.c, e, id, m);
        }
        if Pending(s.c, id, m) && !Pending(t.c, id, m) {
          PublishedIsCarried(cfg, s, e, id, m);
        }
      }
    }
  }

  lemma PublishedIsCarried(cfg: Config, s: Sys, e: Step, id: nat, m: nat)
    requires ValidConfig(cfg) && cfg.rabbit && SysInv(cfg, s) && CanMove(cfg, s, Serve(e))
    requires Obligation(s.c, id, m) && Pending(s.c, id, m) && !Pending(Apply(cfg, s.c, e), id, m)
    requires id in Apply(cfg, s.c, e).db.jobs
    ensures Carried(s, id, m)
  {
    StepOutbox(cfg, s.c, e, id, m);
    assert e.MarkPublished? && e.m == m;
  }

  lemma ServeKeeps(cfg: Config, s: Sys, e: Step)
    requires ValidConfig(cfg) && cfg.rabbit && SysInv(cfg, s) && CanMove(cfg, s, Serve(e))
    ensures SysInv(cfg, Do(cfg, s, Serve(e)))
  {
    InvKept(cfg, s.c, e);
    Forward(cfg, s.c, e);
    ServeAnswers(cfg, s, e);
    ServeAccepted(cfg, s, e);
    ServePhases(cfg, s, e);
    ServeConfirmed(cfg, s, e);
    ServeStrandsNothing(cfg, s, e);
  }

  // ----- broker and consumer moves: the database stays, copies move -----

  // A copy that stops being safe leaves another one behind, or its message is released.
  ghost predicate KeepsCarrying(s: Sys, t: Sys) {
    forall job, message :: Carried(s, job, message) ==> Carried(t, job, message) || !Obligation(s.c, job, message)
  }

  lemma MoveCarries(cfg: Config, s: Sys, mv: Move)
    requires cfg.rabbit && SysInv(cfg, s) && CanMove(cfg, s, mv) && !mv.Serve?
    ensures KeepsCarrying(s, Do(cfg, s, mv))
  {
    var t := Do(cfg, s, mv);
    forall job, message | Carried(s, job, message)
      ensures Carried(t, job, message) || !Obligation(s.c, job, message)
    {
      var k :| k in s.copies && Carries(s, k, job, message);
      if k in t.copies && Carries(t, k, job, message) {
      } else {
        assert mv.Hear? || mv.Finish? || mv.Defer?;
        assert s.consumers[mv.x].copy == k;
        assert PhaseOk(s, mv.x);
        if mv.Defer? {
          assert Carries(t, s.nextCopy, job, message);
        } else if mv.Hear? {
          assert AnswerOk(s.c, s.consumers[mv.x].phase.r, mv.answer);
        } else {
          assert Superseded(s.c, job, s.consumers[mv.x].phase.lease);
        }
      }
    }
  }

  lemma MoveCopy(cfg: Config, s: Sys, mv: Move, k: nat)
    requires cfg.rabbit && SysInv(cfg, s) && CanMove(cfg, s, mv) && !mv.Serve? && k in Do(cfg, s, mv).copies
    ensures CopyOk(Do(cfg, s, mv), k)
  {
    assert k in s.copies ==> CopyOk(s, k);
  }

  lemma MoveHolder(cfg: Config, s: Sys, mv: Move, x: nat)
    requires cfg.rabbit && SysInv(cfg, s) && CanMove(cfg, s, mv) && !mv.Serve? && x in Do(cfg, s, mv).consumers
    ensures HolderOk(Do(cfg, s, mv), x)
  {
    assert x in s.consumers ==> HolderOk(s, x);
  }

  lemma MoveCopies(cfg: Config, s: Sys, mv: Move)
    requires cfg.rabbit && SysInv(cfg, s) && CanMove(cfg, s, mv) && !mv.Serve?
    ensures CopiesInv(Do(cfg, s, mv))
  {
    var t := Do(cfg, s, mv);
    forall k | k in t.copies
      ensures CopyOk(t, k)
    {
      MoveCopy(cfg, s, mv, k);
    }
    forall x | x in t.consumers
      ensures HolderOk(t, x)
    {
      MoveHolder(cfg, s, mv, x);
    }
  }

  lemma MoveRequests(cfg: Config, s: Sys, mv: Move)
    requires cfg.rabbit && SysInv(cfg, s) && CanMove(cfg, s, mv) && !mv.Serve?
    ensures RequestInv(Do(cfg, s, mv))
  {
  }

  predicate Actor(mv: Move, x: nat) {
    (mv.Call? || mv.Hear? || mv.Finish? || mv.Defer?) && mv.x == x
  }

  // The consumer that moves is right about its copy in its new phase.
  lemma ActorPhase(cfg: Config, s: Sys, mv: Move, x: nat)
    requires cfg.rabbit && SysInv(cfg, s) && CanMove(cfg, s, mv) && Actor(mv, x)
    requires Engaged(Do(cfg, s, mv), x)
    ensures PhaseOk(Do(cfg, s, mv), x)
  {
    var t := Do(cfg, s, mv);
    assert PhaseOk(s, x);
    var copy := CopyOf(s, x);
    if mv.Defer? {
      if mv.confirm {
        assert Carries(t, s.nextCopy, copy.job, copy.message);
      }
    } else if mv.Hear? {
      assert AnswerOk(s.c, s.consumers[x].phase.r, mv.answer);
    } else if mv.Finish? {
      assert Superseded(s.c, copy.job, s.consumers[x].phase.lease);
    }
  }

  // A move leaves a consumer that does not act as it was, or makes it idle or newly holding.
  lemma BystanderSame(cfg: Config, s: Sys, mv: Move, x: nat)
    requires cfg.rabbit && SysInv(cfg, s) && CanMove(cfg, s, mv) && !mv.Serve? && !Actor(mv, x)
    requires Engaged(Do(cfg, s, mv), x)
    ensures var t := Do(cfg, s, mv);
            t.c == s.c
            && (t.consumers[x].phase.Holding?
                || (Engaged(s, x) && t.consumers[x] == s.consumers[x]
                    && CopyOf(t, x).job == CopyOf(s, x).job && CopyOf(t, x).message == CopyOf(s, x).message))
  {
  }

  // So every other consumer is still right about its copy.
  lemma BystanderPhase(cfg: Config, s: Sys, mv: Move, x: nat)
    requires cfg.rabbit && SysInv(cfg, s) && CanMove(cfg, s, mv) && !mv.Serve? && !Actor(mv, x)
    requires Engaged(Do(cfg, s, mv), x)
    ensures PhaseOk(Do(cfg, s, mv), x)
  {
    MoveCarries(cfg, s, mv);
    BystanderSame(cfg, s, mv, x);
    if Engaged(s, x) {
      assert PhaseOk(s, x);
    }
  }

  lemma MovePhases(cfg: Config, s: Sys, mv: Move)
    requires cfg.rabbit && SysInv(cfg, s) && CanMove(cfg, s, mv) && !mv.Serve?
    ensures PhasesInv(Do(cfg, s, mv))
  {
    forall x | x in Do(cfg, s, mv).consumers && Engaged(Do(cfg, s, mv), x)
      ensures PhaseOk(Do(cfg, s, mv), x)
    {
      if Actor(mv, x) {
        ActorPhase(cfg, s, mv, x);
      } else {
        BystanderPhase(cfg, s, mv, x);
      }
    }
  }

  lemma MoveConfirmed(cfg: Config, s: Sys, mv: Move)
    requires cfg.rabbit && SysInv(cfg, s) && CanMove(cfg, s, mv) && !mv.Serve?
    ensures ConfirmedInv(Do(cfg, s, mv)) && NothingStranded(Do(cfg, s, mv))
  {
    var t := Do(cfg, s, mv);
    MoveCarries(cfg, s, mv);
    if mv.Publish? {
      assert Carries(t, s.nextCopy, s.c.db.outbox[mv.m].job, mv.m);
    }
  }

  lemma MoveKeeps(cfg: Config, s: Sys, mv: Move)
    requires ValidConfig(cfg) && cfg.rabbit && SysInv(cfg, s) && CanMove(cfg, s, mv)
    ensures SysInv(cfg, Do(cfg, s, mv))
  {
    if mv.Serve? {
      ServeKeeps(cfg, s, mv.e);
    } else {
      MoveCopies(cfg, s, mv);
      MoveRequests(cfg, s, mv);
      MovePhases(cfg, s, mv);
      MoveConfirmed(cfg, s, mv);
    }
  }

  // ----- every run -----

  lemma {:induction false} RunKeeps(cfg: Config, tr: seq<Sys>, ms: seq<Move>, k: nat)
    requires SysRun(cfg, tr, ms) && k < |tr|
    ensures SysInv(cfg, tr[k])
  {
    if k > 0 {
      RunKeeps(cfg, tr, ms, k - 1);
      MoveKeeps(cfg, tr[k - 1], ms[k - 1]);
    }
  }

  // No stranded work, in every state of every run.
  lemma NoStrandedWork(cfg: Config, tr: seq<Sys>, ms: seq<Move>, k: nat, id: nat)
    requires SysRun(cfg, tr, ms) && k < |tr|
    requires id in tr[k].c.db.jobs && Unfinished(tr[k].c.db.jobs[id])
    ensures tr[k].c.db.jobs[id].dispatch.Some?
    ensures var m := tr[k].c.db.jobs[id].dispatch.value;
            (m in tr[k].c.db.outbox && tr[k].c.db.outbox[m].job == id && tr[k].c.db.outbox[m].publishedAt.None?)
            || exists copy :: copy in tr[k].copies.Values && copy.job == id && copy.message == m
  {
    RunKeeps(cfg, tr, ms, k);
    var m := tr[k].c.db.jobs[id].dispatch.value;
    if !Pending(tr[k].c, id, m) {
      var n :| n in tr[k].copies && Carries(tr[k], n, id, m);
      assert tr[k].copies[n] in tr[k].copies.Values;
    }
  }

  lemma ReleasedMove(cfg: Config, s: Sys, mv: Move, job: nat, message: nat)
    requires ValidConfig(cfg) && cfg.rabbit && SysInv(cfg, s) && CanMove(cfg, s, mv)
    requires !Obligation(s.c, job, message) && message < s.c.db.nextId
    ensures !Obligation(Do(cfg, s, mv).c, job, message) && message < Do(cfg, s, mv).c.db.nextId
  {
    if mv.Serve? {
      ReleasedForGood(cfg, s.c, mv.e, job, message);
      Forward(cfg, s.c, mv.e);
    }
  }

  lemma {:induction false} ReleasedRun(cfg: Config, tr: seq<Sys>, ms: seq<Move>, i: nat, k: nat,
                                       job: nat, message: nat)
    requires SysRun(cfg, tr, ms) && i <= k < |tr|
    requires !Obligation(tr[i].c, job, message) && message < tr[i].c.db.nextId
    ensures !Obligation(tr[k].c, job, message) && message < tr[k].c.db.nextId
  {
    if i < k {
      ReleasedRun(cfg, tr, ms, i, k - 1, job, message);
      RunKeeps(cfg, tr, ms, k - 1);
      ReleasedMove(cfg, tr[k - 1], ms[k - 1], job, message);
    }
  }

  // Stability of discard: once begin_attempt has answered discard for a delivery, its message
  // is never again what a queued or running job waits for, however late the acknowledgement.
  lemma DiscardIsForever(cfg: Config, tr: seq<Sys>, ms: seq<Move>, i: nat, k: nat, r: BeginRequest)
    requires SysRun(cfg, tr, ms) && i <= k < |tr| && (r, Discarded) in tr[i].answers
    ensures !Obligation(tr[k].c, r.job, r.message)
  {
    RunKeeps(cfg, tr, ms, i);
    assert AnswerOk(tr[i].c, r, Discarded);
    ReleasedRun(cfg, tr, ms, i, k, r.job, r.message);
  }

  // Every acknowledgement of a delivery is safe: when it reaches the broker, and ever after, the
  // message is no obligation, or another copy of it stays behind.
  lemma AcknowledgementIsSafe(cfg: Config, tr: seq<Sys>, ms: seq<Move>, i: nat)
    requires SysRun(cfg, tr, ms) && i < |ms| && ms[i].Acknowledge?
    ensures var copy := CopyOf(tr[i], ms[i].x);
            Obligation(tr[i + 1].c, copy.job, copy.message) ==> Carried(tr[i + 1], copy.job, copy.message)
  {
    RunKeeps(cfg, tr, ms, i);
    RunKeeps(cfg, tr, ms, i + 1);
    var x := ms[i].x;
    var copy := CopyOf(tr[i], x);
    assert PhaseOk(tr[i], x);
    MoveCarries(cfg, tr[i], ms[i]);
  }
}
