// A worker process that drains: the main loop and the availability reporter of every slot, the
// signals that start and end a drain, and the marker file the updater waits for. Threads
// interleave between any two shared reads and writes.
module Drain {
  import opened Base

  datatype Thread = Loop | Reporter

  // A call of _report_availability: waiting for the availability lock, holding it, request on the
  // wire, request carried out by the coordinator but not answered.
  datatype Report = Silent | Waiting(wanted: bool) | Locked(wanted: bool) | Sent(ready: bool) | Applied(ready: bool)

  // Where the main loop of a slot is.
  datatype Main =
    | Top
    | Entered
    | Flagged
    | Withdrawing
    | Marking
    | Parked
    | Leaving
    | Clearing
    | Rejoining
    | Joining
    | Idle
    | Woken
    | Polling
    | Claiming
    | Working
    | Retiring
    | Gone

  datatype Side =
    | NotStarted
    | Sleeping
    | Reporting
    | Rechecking
    | Announcing
    | Retracting
    | Ended

  // late holds the reports whose caller gave up before the coordinator carried them out; ready is
  // the coordinator's view of the slot. withdrawn records that the withdrawal of the current drain
  // was answered.
  datatype SlotState = SlotState(
    main: Main,
    mainCall: Report,
    side: Side,
    sideCall: Report,
    lock: Option<Thread>,
    available: bool,
    drained: bool,
    task: bool,
    ready: bool,
    late: multiset<bool>,
    withdrawn: bool
  )

  // listed is RemoteWorkerPool._drained; heard is what the last mark_drained read from the drain
  // event.
  datatype Pool = Pool(slots: seq<SlotState>, drain: bool, stop: bool, listed: set<nat>, marker: bool, heard: bool)

  // The steps of a report; raised says that reporting bad health failed as well.
  datatype Talk = Acquire | Evaluate | Execute | Answer(ok: bool, raised: bool) | Abandon(raised: bool)

  datatype Action =
    | Talks(t: Thread, talk: Talk)
    | Enter
    | Look
    | Hide
    | Mark
    | Leave
    | Unmark
    | Clear
    | Wake
    | Check
    | Poll
    | Claim(got: bool)
    | Finish
    | Desert
    | TaskEnds
    | Rise
    | Recheck
    | Announce
    | Arrive(r: bool)
    | Lapse

  datatype Step = Usr1 | Usr2 | Term | Sweep | Act(i: nat, a: Action)

  const FRESH: SlotState :=
    SlotState(Top, Silent, NotStarted, Silent, None, false, false, false, false, multiset{}, false)

  function Start(n: nat): Pool {
    Pool(seq(n, i => FRESH), false, false, {}, false, false)
  }

  function ReportOf(s: SlotState, t: Thread): Report {
    match t
    case Loop =>
      if s.main.Withdrawing? || s.main.Rejoining? || s.main.Joining? || s.main.Retiring? then s.mainCall else Silent
    case Reporter => if s.side.Reporting? || s.side.Retracting? then s.sideCall else Silent
  }

  function At(s: SlotState, t: Thread, r: Report): SlotState {
    if t.Loop? then s.(mainCall := r) else s.(sideCall := r)
  }

  // The call returned normally.
  function Answered(s: SlotState, t: Thread): SlotState {
    match t
    case Loop =>
      if s.main.Withdrawing? then s.(main := Marking)
      else if s.main.Retiring? then s.(main := Gone)
      else if s.main.Rejoining? && s.side.NotStarted? then
        s.(main := Joining, mainCall := Waiting(true), available := true)
      else s.(main := Idle, available := true, side := if s.main.Joining? then Sleeping else s.side)
    case Reporter => s.(side := if s.side.Reporting? then Rechecking else Sleeping)
  }

  // The call raised; raised says that reporting bad health raised as well.
  function Failed(s: SlotState, t: Thread, raised: bool): SlotState {
    match t
    case Loop =>
      s.(main := if s.main.Withdrawing? && !raised then Marking else if s.main.Retiring? then Gone else Top)
    case Reporter => s.(side := Sleeping, available := false)
  }

  // The end of run_forever: a slot that ever registered withdraws once more.
  function Exits(s: SlotState): SlotState {
    if s.side.NotStarted? then s.(main := Gone) else s.(main := Retiring, mainCall := Waiting(false))
  }

  predicate CanTalk(s: SlotState, t: Thread, talk: Talk) {
    match talk
    case Acquire => ReportOf(s, t).Waiting? && s.lock.None?
    case Evaluate => ReportOf(s, t).Locked?
    case Execute => ReportOf(s, t).Sent?
    case Answer(ok, raised) => ReportOf(s, t).Applied?
    case Abandon(raised) => ReportOf(s, t).Sent?
  }

  function Talked(s: SlotState, t: Thread, talk: Talk, stop: bool): SlotState
    requires CanTalk(s, t, talk)
  {
    match talk
    case Acquire => At(s, t, Locked(ReportOf(s, t).wanted)).(lock := Some(t))
    case Evaluate => At(s, t, Sent(ReportOf(s, t).wanted && !s.drained && !stop))
    case Execute => At(s, t, Applied(ReportOf(s, t).ready)).(ready := ReportOf(s, t).ready)
    case Answer(ok, raised) =>
      var w := s.(lock := None, withdrawn := s.withdrawn || (s.main.Withdrawing? && t.Loop? && ok));
      if ok && !raised then Answered(w, t) else Failed(w, t, raised)
    case Abandon(raised) =>
      Failed(s.(lock := None, late := s.late + multiset{ReportOf(s, t).ready}), t, raised)
  }

  predicate CanAct(s: SlotState, a: Action, drain: bool, stop: bool) {
    match a
    case Talks(t, talk) => CanTalk(s, t, talk)
    case Enter => s.main.Top?
    case Look => s.main.Entered?
    case Hide => s.main.Flagged?
    case Mark => s.main.Marking?
    case Leave => s.main.Parked? && (!drain || stop)
    case Unmark => s.main.Leaving?
    case Clear => s.main.Clearing?
    case Wake => s.main.Idle?
    case Check => s.main.Woken?
    case Poll => s.main.Polling?
    case Claim(got) => s.main.Claiming?
    case Finish => s.main.Working?
    case Desert => s.main.Working? && stop
    case TaskEnds => s.task && !s.main.Working?
    case Rise => s.side.Sleeping?
    case Recheck => s.side.Rechecking?
    case Announce => s.side.Announcing?
    case Arrive(r) => r in s.late
    case Lapse => true
  }

  function Acted(s: SlotState, a: Action, drain: bool, stop: bool): SlotState
    requires CanAct(s, a, drain, stop)
  {
    match a
    case Talks(t, talk) => Talked(s, t, talk, stop)
    case Enter => if stop then Exits(s) else s.(main := Entered)
    case Look =>
      if drain then s.(drained := true, main := Flagged)
      else if s.side.NotStarted? then s.(main := Joining, mainCall := Waiting(true))
      else s.(main := Idle)
    case Hide => s.(available := false, main := Withdrawing, mainCall := Waiting(false))
    case Mark => s.(main := Parked)
    case Leave => s.(main := Leaving)
    case Unmark => s.(main := Clearing)
    case Clear =>
      var c := s.(drained := false, withdrawn := false);
      if stop then Exits(c) else c.(main := Rejoining, mainCall := Waiting(true))
    case Wake => s.(main := if s.available then Woken else Top)
    case Check => if stop then Exits(s) else s.(main := Polling)
    case Poll => s.(main := if drain then Top else Claiming)
    case Claim(got) => s.(task := s.task || got, main := if got then Working else Top)
    case Finish => s.(task := false, main := Top)
    case Desert => s.(main := Top)
    case TaskEnds => s.(task := false)
    case Rise =>
      if stop then s.(side := Ended)
      else if s.drained then s
      else s.(side := Reporting, sideCall := Waiting(true))
    case Recheck =>
      if s.drained then s.(side := Retracting, sideCall := Waiting(false)) else s.(side := Announcing)
    case Announce => s.(available := true, side := Sleeping)
    case Arrive(r) => s.(ready := r, late := s.late - multiset{r})
    case Lapse => s.(ready := false)
  }

  predicate Enabled(p: Pool, e: Step) {
    match e
    case Usr1 => true
    case Usr2 => true
    case Term => true
    case Sweep => p.stop
    case Act(i, a) => i < |p.slots| && CanAct(p.slots[i], a, p.drain, p.stop)
  }

  // mark_drained runs under the pool lock.
  function MarkDrained(p: Pool, i: nat, drained: bool): Pool {
    var listed := if drained then p.listed + {i} else p.listed - {i};
    p.(listed := listed, marker := |listed| == |p.slots| && p.drain, heard := p.drain)
  }

  function Apply(p: Pool, e: Step): Pool
    requires Enabled(p, e)
  {
    match e
    case Usr1 => p.(drain := true)
    case Usr2 => p.(drain := false)
    case Term => p.(stop := true)
    case Sweep => p.(marker := false)
    case Act(i, a) =>
      var q := p.(slots := p.slots[i := Acted(p.slots[i], a, p.drain, p.stop)]);
      if a.Mark? then MarkDrained(q, i, true)
      else if a.Unmark? then MarkDrained(q, i, false)
      else q
  }

  predicate Run(tr: seq<Pool>, es: seq<Step>) {
    |tr| == |es| + 1
    && forall k :: 0 <= k < |es| ==> Enabled(tr[k], es[k]) && tr[k + 1] == Apply(tr[k], es[k])
  }

  ghost predicate Reachable(n: nat, p: Pool) {
    exists tr, es :: Run(tr, es) && tr[0] == Start(n) && tr[|es|] == p
  }

  lemma RunExtends(tr: seq<Pool>, es: seq<Step>, e: Step)
    requires Run(tr, es) && Enabled(tr[|es|], e)
    ensures Run(tr + [Apply(tr[|es|], e)], es + [e])
  {
  }

  lemma Reach(n: nat, p: Pool, e: Step)
    requires Reachable(n, p) && Enabled(p, e)
    ensures Reachable(n, Apply(p, e))
  {
    var tr, es :| Run(tr, es) && tr[0] == Start(n) && tr[|es|] == p;
    RunExtends(tr, es, e);
    var tr', es' := tr + [Apply(p, e)], es + [e];
    assert tr'[0] == Start(n) && tr'[|es'|] == Apply(p, e);
  }

  // The steps of the reporter, the network and the clock.
  predicate Aside(a: Action) {
    a.Rise? || a.Recheck? || a.Announce? || a.Arrive? || a.Lapse? || a.TaskEnds?
  }

  // The steps that begin or end a drain.
  predicate Drains(a: Action) {
    a.Look? || a.Hide? || a.Mark? || a.Leave? || a.Unmark? || a.Clear?
  }

  // ----- the marker -----

  lemma {:induction false} FullSize(listed: set<nat>, n: nat)
    requires forall j :: j in listed ==> j < n
    ensures |listed| <= n
    ensures |listed| == n <==> forall j :: 0 <= j < n ==> j in listed
  {
    if n > 0 {
      FullSize(listed - {n - 1}, n - 1);
      if n - 1 !in listed {
        assert listed - {n - 1} == listed;
      }
    }
  }

  predicate AtRest(s: SlotState) {
    s.main.Parked? || s.main.Leaving?
  }

  // A task runs only inside the main loop's call, except that a stopped process may leave one
  // behind on its way out.
  predicate TaskInv(s: SlotState, stop: bool) {
    && (s.task && !s.main.Working? ==> stop && (s.main.Top? || s.main.Retiring? || s.main.Gone?))
    && (s.main.Clearing? || AtRest(s) || s.main.Marking? ==> !s.task)
  }

  ghost predicate Inv(p: Pool) {
    && (forall i :: 0 <= i < |p.slots| ==> TaskInv(p.slots[i], p.stop))
    && (forall i :: i in p.listed <==> 0 <= i < |p.slots| && AtRest(p.slots[i]))
    && (p.marker ==> |p.listed| == |p.slots| && p.heard)
    && (|p.listed| == |p.slots| > 0 && p.heard && !p.stop ==> p.marker)
  }

  lemma TaskInvTalked(s: SlotState, t: Thread, talk: Talk, stop: bool)
    requires TaskInv(s, stop) && CanTalk(s, t, talk)
    ensures TaskInv(Talked(s, t, talk, stop), stop)
  {
  }

  lemma TaskInvKept(s: SlotState, a: Action, drain: bool, stop: bool)
    requires TaskInv(s, stop) && CanAct(s, a, drain, stop)
    ensures TaskInv(Acted(s, a, drain, stop), stop)
  {
    if a.Talks? {
      TaskInvTalked(s, a.t, a.talk, stop);
    }
  }

  lemma TalkingIsNotRest(s: SlotState, t: Thread, talk: Talk, stop: bool)
    requires CanTalk(s, t, talk)
    ensures AtRest(Talked(s, t, talk, stop)) <==> AtRest(s)
  {
  }

  lemma AsideIsNotRest(s: SlotState, a: Action, drain: bool, stop: bool)
    requires CanAct(s, a, drain, stop) && Aside(a)
    ensures AtRest(Acted(s, a, drain, stop)) <==> AtRest(s)
  {
  }

  lemma DrainingRests(s: SlotState, a: Action, drain: bool, stop: bool)
    requires CanAct(s, a, drain, stop) && Drains(a)
    ensures a.Mark? ==> AtRest(Acted(s, a, drain, stop))
    ensures a.Unmark? ==> !AtRest(Acted(s, a, drain, stop))
    ensures !a.Mark? && !a.Unmark? ==> (AtRest(Acted(s, a, drain, stop)) <==> AtRest(s))
  {
  }

  // Only Mark and Unmark enter and leave the rest.
  lemma RestKept(s: SlotState, a: Action, drain: bool, stop: bool)
    requires CanAct(s, a, drain, stop)
    ensures a.Mark? ==> AtRest(Acted(s, a, drain, stop))
    ensures a.Unmark? ==> !AtRest(Acted(s, a, drain, stop))
    ensures !a.Mark? && !a.Unmark? ==> (AtRest(Acted(s, a, drain, stop)) <==> AtRest(s))
  {
    if a.Talks? {
      TalkingIsNotRest(s, a.t, a.talk, stop);
    } else if Aside(a) {
      AsideIsNotRest(s, a, drain, stop);
    } else if Drains(a) {
      DrainingRests(s, a, drain, stop);
    }
  }

  lemma InvKept(p: Pool, e: Step)
    requires Inv(p) && Enabled(p, e)
    ensures Inv(Apply(p, e))
  {
    if e.Act? {
      var s := p.slots[e.i];
      TaskInvKept(s, e.a, p.drain, p.stop);
      RestKept(s, e.a, p.drain, p.stop);
      var q := p.slots[e.i := Acted(s, e.a, p.drain, p.stop)];
      assert Apply(p, e).slots == q;
      if e.a.Unmark? {
        FullSize(Apply(p, e).listed, |q|);
      } else if !e.a.Mark? {
        assert Apply(p, e) == p.(slots := q);
      }
    }
  }

  lemma {:induction false} RunInv(tr: seq<Pool>, es: seq<Step>, n: nat, k: nat)
    requires Run(tr, es) && tr[0] == Start(n) && k < |tr|
    ensures Inv(tr[k]) && |tr[k].slots| == n
  {
    if k > 0 {
      RunInv(tr, es, n, k - 1);
      assert Enabled(tr[k - 1], es[k - 1]) && tr[k] == Apply(tr[k - 1], es[k - 1]);
      InvKept(tr[k - 1], es[k - 1]);
    }
  }

  // Soundness: while the marker exists, every slot is parked and none has a task in flight.
  lemma MarkerSound(tr: seq<Pool>, es: seq<Step>, n: nat, k: nat, i: nat)
    requires Run(tr, es) && tr[0] == Start(n) && k < |tr| && i < n && tr[k].marker
    ensures |tr[k].slots| == n && AtRest(tr[k].slots[i]) && !tr[k].slots[i].task
  {
    RunInv(tr, es, n, k);
    FullSize(tr[k].listed, n);
  }

  predicate AllParked(p: Pool) {
    forall i :: 0 <= i < |p.slots| ==> AtRest(p.slots[i])
  }

  // Completeness fails exactly when the drain event was clear at the last mark: until the process
  // stops, a fully parked pool has its marker if and only if that mark saw the event set.
  lemma MarkerComplete(tr: seq<Pool>, es: seq<Step>, n: nat, k: nat)
    requires Run(tr, es) && tr[0] == Start(n) && 0 < n && k < |tr|
    requires AllParked(tr[k]) && !tr[k].stop
    ensures tr[k].marker <==> tr[k].heard
  {
    RunInv(tr, es, n, k);
    FullSize(tr[k].listed, n);
  }

  lemma ReachableInv(n: nat, p: Pool)
    requires Reachable(n, p)
    ensures Inv(p) && |p.slots| == n
  {
    var tr, es :| Run(tr, es) && tr[0] == Start(n) && tr[|es|] == p;
    RunInv(tr, es, n, |es|);
  }

  // A resume and a new drain around the last mark: every slot is parked, the drain is on, and no
  // marker is there.
  lemma MarkerLost(n: nat, p: Pool, i: nat) returns (q: Pool)
    requires Reachable(n, p) && i < |p.slots| && p.slots[i].main.Marking? && p.drain && !p.stop
    requires forall j :: 0 <= j < |p.slots| && j != i ==> AtRest(p.slots[j])
    ensures Enabled(p, Usr2) && Enabled(Apply(p, Usr2), Act(i, Mark))
    ensures q == Apply(Apply(Apply(p, Usr2), Act(i, Mark)), Usr1)
    ensures Reachable(n, q) && AllParked(q) && q.drain && !q.marker
  {
    Reach(n, p, Usr2);
    Reach(n, Apply(p, Usr2), Act(i, Mark));
    q := Apply(Apply(Apply(p, Usr2), Act(i, Mark)), Usr1);
    Reach(n, Apply(Apply(p, Usr2), Act(i, Mark)), Usr1);
  }

  // From there the marker does not come back before the next resume or the end of the process.
  lemma {:induction false} MarkerStaysLost(tr: seq<Pool>, es: seq<Step>, k: nat)
    requires Run(tr, es) && k < |tr|
    requires (forall i :: 0 <= i < |tr[0].slots| ==> tr[0].slots[i].main.Parked?)
    requires tr[0].drain && !tr[0].stop && !tr[0].marker
    requires forall m :: 0 <= m < k ==> !es[m].Usr2? && !es[m].Term?
    ensures |tr[k].slots| == |tr[0].slots| && tr[k].drain && !tr[k].stop && !tr[k].marker
    ensures forall i :: 0 <= i < |tr[k].slots| ==> tr[k].slots[i].main.Parked?
  {
    if k > 0 {
      MarkerStaysLost(tr, es, k - 1);
      assert Enabled(tr[k - 1], es[k - 1]) && tr[k] == Apply(tr[k - 1], es[k - 1]);
    }
  }

  // The marker does not wait for the withdrawal: if the last slot's withdrawal gets no answer, the
  // marker appears all the same, and the coordinator may still count the slot as ready.
  lemma MarkerWithoutWithdrawal(n: nat, p: Pool, i: nat) returns (q: Pool)
    requires Reachable(n, p) && i < |p.slots| && p.drain
    requires p.slots[i].main.Withdrawing? && p.slots[i].mainCall.Sent? && !p.slots[i].withdrawn
    requires forall j :: 0 <= j < |p.slots| && j != i ==> AtRest(p.slots[j])
    ensures Enabled(p, Act(i, Talks(Loop, Abandon(false))))
    ensures Enabled(Apply(p, Act(i, Talks(Loop, Abandon(false)))), Act(i, Mark))
    ensures q == Apply(Apply(p, Act(i, Talks(Loop, Abandon(false)))), Act(i, Mark))
    ensures Reachable(n, q) && q.marker && !q.slots[i].withdrawn && q.slots[i].ready == p.slots[i].ready
  {
    ReachableInv(n, p);
    var mid := Apply(p, Act(i, Talks(Loop, Abandon(false))));
    q := Apply(mid, Act(i, Mark));
    Reach(n, p, Act(i, Talks(Loop, Abandon(false))));
    Reach(n, mid, Act(i, Mark));
    assert q.listed == p.listed + {i};
    FullSize(q.listed, |q.slots|);
  }

  // ----- the withdrawal -----

  predicate Excluded(s: SlotState, t: Thread) {
    !ReportOf(s, t).Silent? && !ReportOf(s, t).Waiting? ==> s.lock == Some(t)
  }

  // From the loop's return from its withdrawal, answered or not, to the end of the drain.
  predicate Settled(s: SlotState) {
    s.main.Marking? || AtRest(s) || s.main.Clearing?
  }

  // The availability lock serializes the two threads' reports of a slot. The loop takes it after
  // the drained flag is up, so once the loop has come back no report says ready.
  predicate LockInv(s: SlotState) {
    && Excluded(s, Loop) && Excluded(s, Reporter)
    && (s.withdrawn ==> s.drained)
    && (s.withdrawn ==> !SaysReady(s, Loop) && !SaysReady(s, Reporter))
    && (s.main.Withdrawing? ==> s.drained && !SaysReady(s, Loop))
    && (s.main.Flagged? || Settled(s) ==> s.drained)
    && (Settled(s) ==> !SaysReady(s, Reporter))
  }

  predicate SaysReady(s: SlotState, t: Thread) {
    (ReportOf(s, t).Sent? || ReportOf(s, t).Applied?) && ReportOf(s, t).ready
  }

  // A call comes back, with or without an answer, and gives up the lock.
  lemma LockInvAnswered(s: SlotState, ok: bool, raised: bool, stop: bool)
    requires LockInv(s) && CanTalk(s, Loop, Answer(ok, raised))
    ensures LockInv(Talked(s, Loop, Answer(ok, raised), stop))
  {
    var n := Talked(s, Loop, Answer(ok, raised), stop);
    assert ReportOf(n, Reporter) == ReportOf(s, Reporter) || ReportOf(n, Reporter).Silent?;
    assert n.main.Marking? || n.main.Joining? || n.main.Idle? || n.main.Top? || n.main.Gone?;
  }

  lemma LockInvAbandoned(s: SlotState, raised: bool, stop: bool)
    requires LockInv(s) && CanTalk(s, Loop, Abandon(raised))
    ensures LockInv(Talked(s, Loop, Abandon(raised), stop))
  {
    var n := Talked(s, Loop, Abandon(raised), stop);
    assert ReportOf(n, Reporter) == ReportOf(s, Reporter);
    assert n.main.Marking? || n.main.Top? || n.main.Gone?;
  }

  lemma LockInvReporterReturns(s: SlotState, talk: Talk, stop: bool)
    requires LockInv(s) && CanTalk(s, Reporter, talk) && (talk.Answer? || talk.Abandon?)
    ensures LockInv(Talked(s, Reporter, talk, stop))
  {
    var n := Talked(s, Reporter, talk, stop);
    assert n.main == s.main && n.withdrawn == s.withdrawn;
    assert n.side.Rechecking? || n.side.Sleeping?;
  }

  lemma LockInvTalked(s: SlotState, t: Thread, talk: Talk, stop: bool)
    requires LockInv(s) && CanTalk(s, t, talk)
    ensures LockInv(Talked(s, t, talk, stop))
  {
    if talk.Answer? || talk.Abandon? {
      if t.Loop? && talk.Answer? {
        LockInvAnswered(s, talk.ok, talk.raised, stop);
      } else if t.Loop? {
        LockInvAbandoned(s, talk.raised, stop);
      } else {
        LockInvReporterReturns(s, talk, stop);
      }
    }
  }

  lemma LockInvAside(s: SlotState, a: Action, drain: bool, stop: bool)
    requires LockInv(s) && CanAct(s, a, drain, stop) && Aside(a)
    ensures LockInv(Acted(s, a, drain, stop))
  {
  }

  lemma LockInvDrains(s: SlotState, a: Action, drain: bool, stop: bool)
    requires LockInv(s) && CanAct(s, a, drain, stop) && Drains(a)
    ensures LockInv(Acted(s, a, drain, stop))
  {
  }

  // The main loop elsewhere, as far as the lock is concerned.
  lemma LockInvMoves(s: SlotState, main: Main, mainCall: Report, task: bool)
    requires LockInv(s) && ReportOf(s, Loop).Silent?
    requires main.Retiring? ==> mainCall == Waiting(false)
    requires main.Top? || main.Entered? || main.Woken? || main.Polling? || main.Claiming? || main.Working?
             || main.Retiring? || main.Gone?
    ensures LockInv(s.(main := main, mainCall := mainCall, task := task))
  {
  }

  // The remaining steps: the main loop between two drains.
  lemma LockInvLoops(s: SlotState, a: Action, drain: bool, stop: bool)
    requires LockInv(s) && CanAct(s, a, drain, stop) && !a.Talks? && !Aside(a) && !Drains(a)
    ensures LockInv(Acted(s, a, drain, stop))
  {
    var n := Acted(s, a, drain, stop);
    LockInvMoves(s, n.main, n.mainCall, n.task);
    assert n == s.(main := n.main, mainCall := n.mainCall, task := n.task);
  }

  lemma LockInvKept(s: SlotState, a: Action, drain: bool, stop: bool)
    requires LockInv(s) && CanAct(s, a, drain, stop)
    ensures LockInv(Acted(s, a, drain, stop))
  {
    if a.Talks? {
      LockInvTalked(s, a.t, a.talk, stop);
    } else if Aside(a) {
      LockInvAside(s, a, drain, stop);
    } else if Drains(a) {
      LockInvDrains(s, a, drain, stop);
    } else {
      LockInvLoops(s, a, drain, stop);
    }
  }

  lemma {:induction false} RunLockInv(tr: seq<Pool>, es: seq<Step>, n: nat, k: nat, i: nat)
    requires Run(tr, es) && tr[0] == Start(n) && k < |tr| && i < n
    ensures |tr[k].slots| == n && LockInv(tr[k].slots[i])
  {
    if k > 0 {
      RunLockInv(tr, es, n, k - 1, i);
      var p, e := tr[k - 1], es[k - 1];
      assert Enabled(p, e) && tr[k] == Apply(p, e);
      if e.Act? && e.i == i {
        LockInvKept(p.slots[i], e.a, p.drain, p.stop);
      }
    }
  }

  // A ready report is on the wire and not carried out yet.
  predicate Speaks(s: SlotState, t: Thread) {
    ReportOf(s, t) == Sent(true)
  }

  // Whatever could make this slot ready.
  predicate Revivable(s: SlotState) {
    s.ready || true in s.late || Speaks(s, Loop) || Speaks(s, Reporter)
  }

  lemma AnswerKeepsOut(s: SlotState, ok: bool, raised: bool, stop: bool)
    requires s.drained && !Revivable(s) && CanTalk(s, Loop, Answer(ok, raised))
    ensures Talked(s, Loop, Answer(ok, raised), stop).drained && !Revivable(Talked(s, Loop, Answer(ok, raised), stop))
  {
    var n := Talked(s, Loop, Answer(ok, raised), stop);
    assert ReportOf(n, Reporter) == ReportOf(s, Reporter) || ReportOf(n, Reporter).Silent?;
    assert ReportOf(n, Loop).Silent? || ReportOf(n, Loop).Waiting?;
  }

  lemma AbandonKeepsOut(s: SlotState, raised: bool, stop: bool)
    requires s.drained && !Revivable(s) && CanTalk(s, Loop, Abandon(raised))
    ensures Talked(s, Loop, Abandon(raised), stop).drained && !Revivable(Talked(s, Loop, Abandon(raised), stop))
  {
    var n := Talked(s, Loop, Abandon(raised), stop);
    assert ReportOf(n, Reporter) == ReportOf(s, Reporter) && ReportOf(n, Loop).Silent?;
    assert n.late == s.late + multiset{false};
  }

  lemma LoopKeepsOut(s: SlotState, talk: Talk, stop: bool)
    requires s.drained && !Revivable(s) && CanTalk(s, Loop, talk)
    ensures Talked(s, Loop, talk, stop).drained && !Revivable(Talked(s, Loop, talk, stop))
  {
    if talk.Answer? {
      AnswerKeepsOut(s, talk.ok, talk.raised, stop);
    } else if talk.Abandon? {
      AbandonKeepsOut(s, talk.raised, stop);
    }
  }

  lemma ReporterKeepsOut(s: SlotState, talk: Talk, stop: bool)
    requires s.drained && !Revivable(s) && CanTalk(s, Reporter, talk)
    ensures Talked(s, Reporter, talk, stop).drained && !Revivable(Talked(s, Reporter, talk, stop))
  {
  }

  lemma AsideKeepsOut(s: SlotState, a: Action, drain: bool, stop: bool)
    requires s.drained && !Revivable(s) && CanAct(s, a, drain, stop) && Aside(a)
    ensures Acted(s, a, drain, stop).drained && !Revivable(Acted(s, a, drain, stop))
  {
  }

  // While the drained flag is up nothing new says ready.
  lemma OutOfServiceKept(s: SlotState, a: Action, drain: bool, stop: bool)
    requires s.drained && !Revivable(s) && CanAct(s, a, drain, stop) && !a.Clear?
    ensures Acted(s, a, drain, stop).drained && !Revivable(Acted(s, a, drain, stop))
  {
    if a.Talks? {
      if a.t.Loop? {
        LoopKeepsOut(s, a.talk, stop);
      } else {
        ReporterKeepsOut(s, a.talk, stop);
      }
    } else if Aside(a) {
      AsideKeepsOut(s, a, drain, stop);
    }
  }

  // Some run from here leads to a ready slot before its drain ends.
  ghost predicate CanBeReady(p: Pool, i: nat)
    requires i < |p.slots|
  {
    exists tr, es :: Revives(p, i, tr, es)
  }

  predicate Revives(p: Pool, i: nat, tr: seq<Pool>, es: seq<Step>) {
    && Run(tr, es) && tr[0] == p && i < |p.slots|
    && (forall m :: 0 <= m < |es| ==> es[m] != Act(i, Clear))
    && i < |tr[|es|].slots| && tr[|es|].slots[i].ready
  }

  lemma {:induction false} StaysOut(p: Pool, i: nat, tr: seq<Pool>, es: seq<Step>, k: nat)
    requires i < |p.slots| && p.slots[i].drained && !Revivable(p.slots[i])
    requires Run(tr, es) && tr[0] == p && k < |tr|
    requires forall m :: 0 <= m < |es| ==> es[m] != Act(i, Clear)
    ensures i < |tr[k].slots| && tr[k].slots[i].drained && !Revivable(tr[k].slots[i])
  {
    if k > 0 {
      StaysOut(p, i, tr, es, k - 1);
      var q, e := tr[k - 1], es[k - 1];
      assert Enabled(q, e) && tr[k] == Apply(q, e);
      if e.Act? && e.i == i {
        assert e.a != Clear;
        OutOfServiceKept(q.slots[i], e.a, q.drain, q.stop);
      }
    }
  }

  lemma Speaking(p: Pool, i: nat, t: Thread)
    requires i < |p.slots| && Speaks(p.slots[i], t)
    ensures CanBeReady(p, i)
  {
    var e := Act(i, Talks(t, Execute));
    assert Revives(p, i, [p, Apply(p, e)], [e]);
  }

  // From any state at all: a slot whose drained flag is up can be ready before its drain ends if
  // and only if it is ready, or a ready report is on the wire, abandoned or not.
  lemma ReadyOnlyByReport(p: Pool, i: nat)
    requires i < |p.slots| && p.slots[i].drained
    ensures CanBeReady(p, i) <==> Revivable(p.slots[i])
  {
    var s := p.slots[i];
    if s.ready {
      assert Revives(p, i, [p], []);
    }
    if true in s.late {
      assert Revives(p, i, [p, Apply(p, Act(i, Arrive(true)))], [Act(i, Arrive(true))]);
    }
    if Speaks(s, Loop) {
      Speaking(p, i, Loop);
    }
    if Speaks(s, Reporter) {
      Speaking(p, i, Reporter);
    }
    if !Revivable(s) && CanBeReady(p, i) {
      var tr, es :| Revives(p, i, tr, es);
      StaysOut(p, i, tr, es, |es|);
    }
  }

  // In every run, once a slot is parked, its withdrawal answered or not, or once its withdrawal was
  // answered, it can be ready before its drain ends if and only if it still is or an abandoned ready
  // report is still to be carried out: the reporter thread can never do it.
  lemma RevivedOnlyByLateReport(tr: seq<Pool>, es: seq<Step>, n: nat, k: nat, i: nat)
    requires Run(tr, es) && tr[0] == Start(n) && k < |tr| && i < n
    requires |tr[k].slots| == n && (Settled(tr[k].slots[i]) || tr[k].slots[i].withdrawn)
    ensures CanBeReady(tr[k], i) <==> tr[k].slots[i].ready || true in tr[k].slots[i].late
  {
    RunLockInv(tr, es, n, k, i);
    ReadyOnlyByReport(tr[k], i);
  }

  // What the marker is worth: a marked process is out of service until its drain ends if and only
  // if the coordinator counts none of its slots as ready and no abandoned ready report is left.
  lemma MarkedOutOfServiceIff(tr: seq<Pool>, es: seq<Step>, n: nat, k: nat)
    requires Run(tr, es) && tr[0] == Start(n) && k < |tr| && tr[k].marker
    ensures |tr[k].slots| == n
    ensures (forall i :: 0 <= i < n ==> !CanBeReady(tr[k], i))
       <==> (forall i :: 0 <= i < n ==> !tr[k].slots[i].ready && true !in tr[k].slots[i].late)
  {
    RunInv(tr, es, n, k);
    forall i | 0 <= i < n
      ensures CanBeReady(tr[k], i) <==> tr[k].slots[i].ready || true in tr[k].slots[i].late
    {
      MarkerSound(tr, es, n, k, i);
      RevivedOnlyByLateReport(tr, es, n, k, i);
    }
  }

  // The coordinator has carried out a withdrawal of this drain that was answered or still can be.
  predicate CarriedOut(s: SlotState) {
    s.withdrawn || (s.main.Withdrawing? && s.mainCall.Applied?)
  }

  // Readiness after a withdrawal was there before the step, unless it came with a late report.
  lemma ReadyBeforeTalk(s: SlotState, t: Thread, talk: Talk, stop: bool)
    requires LockInv(s) && CanTalk(s, t, talk)
    requires CarriedOut(Talked(s, t, talk, stop)) && Talked(s, t, talk, stop).ready
    ensures CarriedOut(s) && s.ready
  {
    assert t.Loop? ==> Excluded(s, Loop);
    assert t.Reporter? ==> Excluded(s, Reporter);
  }

  lemma ReadyBefore(s: SlotState, a: Action, drain: bool, stop: bool)
    requires LockInv(s) && CanAct(s, a, drain, stop) && a != Arrive(true)
    requires CarriedOut(Acted(s, a, drain, stop)) && Acted(s, a, drain, stop).ready
    ensures CarriedOut(s) && s.ready && a != Clear
  {
    if a.Talks? {
      ReadyBeforeTalk(s, a.t, a.talk, stop);
    }
  }

  // A withdrawal works: a slot whose withdrawal was answered is ready only if, within the same drain,
  // a ready report that the worker had given up on was carried out.
  lemma {:induction false} WithdrawnIsOut(tr: seq<Pool>, es: seq<Step>, n: nat, k: nat, i: nat) returns (m: nat)
    requires Run(tr, es) && tr[0] == Start(n) && k < |tr| && i < n
    requires |tr[k].slots| == n && CarriedOut(tr[k].slots[i]) && tr[k].slots[i].ready
    ensures m < k && es[m] == Act(i, Arrive(true))
    ensures forall j :: m < j < k ==> es[j] != Act(i, Clear)
    decreases k
  {
    if k == 0 {
      assert false;
    } else if es[k - 1] == Act(i, Arrive(true)) {
      m := k - 1;
    } else {
      RunLockInv(tr, es, n, k - 1, i);
      var p, e := tr[k - 1], es[k - 1];
      assert Enabled(p, e) && tr[k] == Apply(p, e);
      if e.Act? && e.i == i {
        ReadyBefore(p.slots[i], e.a, p.drain, p.stop);
      }
      m := WithdrawnIsOut(tr, es, n, k - 1, i);
    }
  }

  // No ready report that the worker had given up on was carried out for this slot.
  predicate NoLateReady(es: seq<Step>, k: nat, i: nat)
    requires k <= |es|
  {
    forall m :: 0 <= m < k ==> es[m] != Act(i, Arrive(true))
  }

  // A marked process all of whose withdrawals were answered, with no late ready report so far, is out
  // of service until its drain ends if and only if no report given up on is left to come.
  lemma MarkedOutOfService(tr: seq<Pool>, es: seq<Step>, n: nat, k: nat)
    requires Run(tr, es) && tr[0] == Start(n) && k < |tr| && tr[k].marker && |tr[k].slots| == n
    requires forall i :: 0 <= i < n ==> tr[k].slots[i].withdrawn && NoLateReady(es, k, i)
    ensures (forall i :: 0 <= i < n ==> !CanBeReady(tr[k], i))
       <==> (forall i :: 0 <= i < n ==> true !in tr[k].slots[i].late)
  {
    MarkedOutOfServiceIff(tr, es, n, k);
    forall i | 0 <= i < n
      ensures !tr[k].slots[i].ready
    {
      if tr[k].slots[i].ready {
        var m := WithdrawnIsOut(tr, es, n, k, i);
      }
    }
  }

  // In particular it is if no ready report was ever given up on.
  lemma NothingGivenUp(tr: seq<Pool>, es: seq<Step>, n: nat, k: nat, i: nat)
    requires Run(tr, es) && tr[0] == Start(n) && k < |tr| && i < n
    requires forall m :: 0 <= m <= k ==> |tr[m].slots| == n && true !in tr[m].slots[i].late
    ensures NoLateReady(es, k, i) && (tr[k].slots[i].withdrawn ==> !CanBeReady(tr[k], i))
  {
    forall m | 0 <= m < k
      ensures es[m] != Act(i, Arrive(true))
    {
      assert Enabled(tr[m], es[m]) && true !in tr[m].slots[i].late;
    }
    if tr[k].slots[i].withdrawn {
      if tr[k].slots[i].ready {
        var m := WithdrawnIsOut(tr, es, n, k, i);
      }
      RevivedOnlyByLateReport(tr, es, n, k, i);
    }
  }

  // A process with one slot before its marker appears.
  function Alone(s: SlotState, drain: bool): Pool {
    Pool([s], drain, false, {}, false, false)
  }

  lemma ReachAlone(s: SlotState, drain: bool, a: Action, n: SlotState)
    requires Reachable(1, Alone(s, drain)) && CanAct(s, a, drain, false) && !a.Mark? && !a.Unmark?
    requires n == Acted(s, a, drain, false)
    ensures Reachable(1, Alone(n, drain))
  {
    Reach(1, Alone(s, drain), Act(0, a));
    assert [s][0 := n] == [n];
  }

  lemma JoiningAlone() returns (locked: SlotState)
    ensures locked == FRESH.(main := Joining, mainCall := Locked(true), lock := Some(Loop))
    ensures Reachable(1, Alone(locked, false))
  {
    var start := Start(1);
    assert start == Alone(FRESH, false);
    assert Run([start], []);
    var entered := FRESH.(main := Entered);
    ReachAlone(FRESH, false, Enter, entered);
    var joining := FRESH.(main := Joining, mainCall := Waiting(true));
    ReachAlone(entered, false, Look, joining);
    locked := joining.(mainCall := Locked(true), lock := Some(Loop));
    ReachAlone(joining, false, Talks(Loop, Acquire), locked);
  }

  lemma AbandonedRegistration() returns (s: SlotState)
    ensures s == FRESH.(mainCall := Sent(true), late := multiset{true}) && Reachable(1, Alone(s, true))
  {
    var locked := JoiningAlone();
    var sent := locked.(mainCall := Sent(true));
    ReachAlone(locked, false, Talks(Loop, Evaluate), sent);
    s := FRESH.(mainCall := Sent(true), late := multiset{true});
    ReachAlone(sent, false, Talks(Loop, Abandon(false)), s);
    Reach(1, Alone(s, false), Usr1);
  }

  lemma AnsweredWithdrawal(s: SlotState) returns (w: SlotState)
    requires s == FRESH.(mainCall := Sent(true), late := multiset{true}) && Reachable(1, Alone(s, true))
    ensures w.main.Marking? && w.withdrawn && !w.ready && w.late == multiset{true} && Reachable(1, Alone(w, true))
  {
    var entered := s.(main := Entered);
    ReachAlone(s, true, Enter, entered);
    var flagged := s.(main := Flagged, drained := true);
    ReachAlone(entered, true, Look, flagged);
    var waiting := flagged.(main := Withdrawing, mainCall := Waiting(false));
    ReachAlone(flagged, true, Hide, waiting);
    var locked := waiting.(mainCall := Locked(false), lock := Some(Loop));
    ReachAlone(waiting, true, Talks(Loop, Acquire), locked);
    var sent := locked.(mainCall := Sent(false));
    ReachAlone(locked, true, Talks(Loop, Evaluate), sent);
    var applied := locked.(mainCall := Applied(false));
    ReachAlone(sent, true, Talks(Loop, Execute), applied);
    w := applied.(lock := None, withdrawn := true, main := Marking);
    ReachAlone(applied, true, Talks(Loop, Answer(true, false)), w);
  }

  // It does happen: a registration that timed out is carried out after the slot's withdrawal was
  // answered, while its marker tells the updater that the process is drained.
  lemma LateReportRevives() returns (p: Pool)
    ensures Reachable(1, p) && |p.slots| == 1
    ensures p.marker && p.slots[0].main.Parked? && p.slots[0].withdrawn && p.slots[0].ready
  {
    var s := AbandonedRegistration();
    var w := AnsweredWithdrawal(s);
    Reach(1, Alone(w, true), Act(0, Mark));
    var parked := Apply(Alone(w, true), Act(0, Mark));
    Reach(1, parked, Act(0, Arrive(true)));
    p := Apply(parked, Act(0, Arrive(true)));
  }

  // A slot that has registered and is then asked to drain, up to its withdrawal on the wire.
  lemma RegisteredThenDraining() returns (s: SlotState)
    ensures Reachable(1, Alone(s, true))
    ensures s.main.Withdrawing? && s.mainCall == Sent(false) && s.ready && !s.withdrawn
  {
    var locked := JoiningAlone();
    var sent := locked.(mainCall := Sent(true));
    ReachAlone(locked, false, Talks(Loop, Evaluate), sent);
    var applied := locked.(mainCall := Applied(true), ready := true);
    ReachAlone(sent, false, Talks(Loop, Execute), applied);
    var idle := applied.(lock := None, main := Idle, available := true, side := Sleeping);
    ReachAlone(applied, false, Talks(Loop, Answer(true, false)), idle);
    Reach(1, Alone(idle, false), Usr1);
    s := BackToWithdrawal(idle);
  }

  lemma BackToWithdrawal(idle: SlotState) returns (s: SlotState)
    requires Reachable(1, Alone(idle, true)) && idle.main.Idle? && idle.available && idle.side.Sleeping?
    requires idle.ready && !idle.withdrawn && idle.lock.None?
    ensures Reachable(1, Alone(s, true))
    ensures s.main.Withdrawing? && s.mainCall == Sent(false) && s.ready && !s.withdrawn
  {
    var woken := idle.(main := Woken);
    ReachAlone(idle, true, Wake, woken);
    var polling := idle.(main := Polling);
    ReachAlone(woken, true, Check, polling);
    var top := idle.(main := Top);
    ReachAlone(polling, true, Poll, top);
    var entered := idle.(main := Entered);
    ReachAlone(top, true, Enter, entered);
    var flagged := idle.(main := Flagged, drained := true);
    ReachAlone(entered, true, Look, flagged);
    var waiting := flagged.(main := Withdrawing, mainCall := Waiting(false), available := false);
    ReachAlone(flagged, true, Hide, waiting);
    var locked := waiting.(mainCall := Locked(false), lock := Some(Loop));
    ReachAlone(waiting, true, Talks(Loop, Acquire), locked);
    s := locked.(mainCall := Sent(false));
    ReachAlone(locked, true, Talks(Loop, Evaluate), s);
  }

  // It does happen: a process shows its marker while the coordinator counts its slot as ready.
  lemma MarkedButReady() returns (q: Pool)
    ensures Reachable(1, q) && |q.slots| == 1
    ensures q.marker && q.slots[0].main.Parked? && !q.slots[0].withdrawn && q.slots[0].ready
  {
    var s := RegisteredThenDraining();
    q := MarkerWithoutWithdrawal(1, Alone(s, true), 0);
  }

  // It does happen: a process parks under a running drain and shows no marker.
  lemma ParkedButUnmarked() returns (q: Pool)
    ensures Reachable(1, q) && |q.slots| == 1 && q.slots[0].main.Parked? && q.drain && !q.stop && !q.marker
  {
    var s := AbandonedRegistration();
    var w := AnsweredWithdrawal(s);
    q := MarkerLost(1, Alone(w, true), 0);
  }
}
