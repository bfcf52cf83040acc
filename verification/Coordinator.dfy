// The coordinator as a state machine. Every transaction of JobStore is a step, or several when
// it holds the scheduler lock: then each statement is a step of its own and time, the broker
// bookkeeping and every transaction that does not take that lock may come in between.
module Coordinator {
  import opened Base
  import opened Rows
  import opened Observations
  import opened Queue
  import opened Lifecycle
  import opened Bulk

  // Who holds the scheduler lock, and how far its transaction has come. A begin_attempt that
  // passed broker_job.sql also holds the row lock of its job.
  datatype Lock =
    | Free
    | BeginRow(r: BeginRequest, now: Time)
    | BeginReady(r: BeginRequest, now: Time)
    | ClaimOpen(slot: Slot, now: Time)
    | ClaimReaped(slot: Slot, now: Time)
    | ClaimAsked(slot: Slot, now: Time)
    | ClaimSelected(slot: Slot, now: Time)

  // What happened so far; nothing in the database depends on it.
  datatype History = History(
    leases: map<nat, seq<Lease>>,
    completions: map<nat, seq<Lease>>,
    reclaimed: nat,
    exhausted: nat,
    cancelledRunning: nat
  )

  datatype Coord = Coord(db: Db, clock: Time, lock: Lock, hist: History)

  datatype Step =
    | Tick(to: Time)
    | CreateJob(opts: Options, now: Time)
    | MarkDownloading(id: nat)
    | MarkInterrupted(id: nat)
    | MarkQueued(id: nat)
    | FailUpload(id: nat, now: Time, error: string)
    | BeginLook(r: BeginRequest, now: Time)
    | BeginCapacity
    | BeginWrite
    | ClaimLock(slot: Slot, now: Time)
    | ClaimReap
    | ClaimRequest
    | ClaimSelect
    | ClaimTake(candidate: Option<nat>, locked: set<nat>)
    | Abandon
    | Renew(id: nat, lease: Lease, progress: real)
    | CompleteJob(id: nat, lease: Lease, now: Time, text: string, segments: string, path: string)
    | FailJob(id: nat, lease: Lease, now: Time, error: string, retryable: bool)
    | CancelJob(id: nat, now: Time)
    | AckJob(id: nat, now: Time)
    | CleanUp(now: Time)
    | ReportSlot(slot: Slot, ready: bool, now: Time)
    | RegisterSlot(slot: Slot)
    | MarkPublished(m: nat, now: Time)
    | ReconcileAll

  // The error codes the worker API accepts and the ones the ingress and local workers pass.
  const ATTEMPT_ERRORS: set<string> :=
    {"invalid_input", "inference_failed", "worker_stopping", "input_missing", "transcription_failed"}

  const UPLOAD_ERRORS: set<string> := {"input_too_large", "storage_capacity", "upload_failed"}

  const START: Coord := Coord(EMPTY, 0, Free, History(map[], map[], 0, 0, 0))

  function Get<T>(m: map<nat, seq<T>>, id: nat): seq<T> {
    if id in m then m[id] else []
  }

  function Row(db: Db, id: nat): Option<Job> {
    if id in db.jobs then Some(db.jobs[id]) else None
  }

  predicate RowLocked(lock: Lock, id: nat) {
    (lock.BeginRow? || lock.BeginReady?) && lock.r.job == id
  }

  // ----- steps -----

  predicate Enabled(cfg: Config, s: Coord, e: Step) {
    match e
    case Tick(to) => s.clock <= to
    case CreateJob(opts, now) =>
      now <= s.clock
      && (opts.requestId == "" || forall id :: id in s.db.jobs ==> s.db.jobs[id].requestId != opts.requestId)
    case MarkDownloading(id) => !RowLocked(s.lock, id)
    case MarkInterrupted(id) => !RowLocked(s.lock, id)
    case MarkQueued(id) => !RowLocked(s.lock, id)
    case FailUpload(id, now, error) => now <= s.clock && !RowLocked(s.lock, id) && error in UPLOAD_ERRORS
    case BeginLook(r, now) => cfg.rabbit && s.lock.Free? && now <= s.clock
    case BeginCapacity => s.lock.BeginRow?
    case BeginWrite => s.lock.BeginReady?
    case ClaimLock(slot, now) => !cfg.rabbit && s.lock.Free? && now <= s.clock
    case ClaimReap => s.lock.ClaimOpen?
    case ClaimRequest => s.lock.ClaimReaped?
    case ClaimSelect => s.lock.ClaimAsked?
    case ClaimTake(candidate, locked) =>
      s.lock.ClaimSelected?
      && (if candidate.Some? then IsCandidate(s.db, candidate.value, locked, s.clock)
          else forall id :: id in s.db.jobs && id !in locked ==> !Claimable(s.db.jobs[id], s.clock))
    case Abandon => true
    case Renew(id, lease, progress) => s.lock.Free?
    case CompleteJob(id, lease, now, text, segments, path) => now <= s.clock && !RowLocked(s.lock, id)
    case FailJob(id, lease, now, error, retryable) =>
      now <= s.clock && !RowLocked(s.lock, id) && lease.Lease? && error in ATTEMPT_ERRORS
    case CancelJob(id, now) => now <= s.clock && !RowLocked(s.lock, id)
    case AckJob(id, now) => now <= s.clock && !RowLocked(s.lock, id)
    case CleanUp(now) => now <= s.clock && forall id :: id in Reapable(s.db, now) ==> !RowLocked(s.lock, id)
    case ReportSlot(slot, ready, now) => now <= s.clock
    case RegisterSlot(slot) => cfg.rabbit && s.lock.Free?
    case MarkPublished(m, now) => now <= s.clock
    case ReconcileAll => cfg.rabbit && s.lock.Free?
  }

  function Started(h: History, id: nat, lease: Lease, reclaim: bool): History {
    h.(leases := h.leases[id := Get(h.leases, id) + [lease]],
    reclaimed := h.reclaimed + Once(reclaim))
  }

  function Exhausted(h: History, n: nat): History {
    h.(exhausted := h.exhausted + n)
  }

  function LookStep(cfg: Config, s: Coord, r: BeginRequest, now: Time): Coord {
    match Decide(cfg, s.db, r, s.clock)
    case Proceed => s.(lock := BeginRow(r, now))
    case Exhaust =>
      if r.job in s.db.jobs then
        s.(db := ExhaustJob(s.db, r.job, now), hist := Exhausted(s.hist, Once(s.db.jobs[r.job].status.Running?)))
      else s
    case _ => s
  }

  function WriteStep(cfg: Config, s: Coord): Coord
    requires s.lock.BeginReady?
  {
    var r := s.lock.r;
    if r.job in s.db.jobs then
      s.(db := StartJob(cfg, s.db, r, s.lock.now, s.clock), lock := Free,
      hist := Started(s.hist, r.job, FreshLease(s.db, r.slot), s.db.jobs[r.job].status.Running?))
    else s.(lock := Free)
  }

  function TakeStep(cfg: Config, s: Coord, candidate: Option<nat>): Coord
    requires s.lock.ClaimSelected?
  {
    if candidate.Some? && candidate.value in s.db.jobs then
      var id := candidate.value;
      s.(db := TakeJob(cfg, s.db, id, s.lock.slot, s.lock.now, s.clock), lock := Free,
      hist := Started(s.hist, id, FreshLease(s.db, s.lock.slot), s.db.jobs[id].status.Running?))
    else s.(lock := Free)
  }

  function CompleteStep(s: Coord, id: nat, lease: Lease, now: Time,
                        text: string, segments: string, path: string): Coord {
    if CompleteAccepted(s.db, id, lease, now) then
      s.(db := Complete(s.db, id, lease, now, text, segments, path),
      hist := s.hist.(completions := s.hist.completions[id := Get(s.hist.completions, id) + [lease]]))
    else s
  }

  function CancelStep(s: Coord, id: nat, now: Time): Coord {
    s.(db := Cancel(s.db, id, now),
    hist := s.hist.(cancelledRunning := s.hist.cancelledRunning
                                        + Once(id in s.db.jobs && s.db.jobs[id].status.Running?)))
  }

  function Apply(cfg: Config, s: Coord, e: Step): Coord
    requires Enabled(cfg, s, e)
  {
    match e
    case Tick(to) => s.(clock := to)
    case CreateJob(opts, now) => s.(db := Create(cfg, s.db, opts, now))
    case MarkDownloading(id) => s.(db := Download(s.db, id))
    case MarkInterrupted(id) => s.(db := Interrupt(s.db, id))
    case MarkQueued(id) => s.(db := Submit(cfg, s.db, id, s.clock))
    case FailUpload(id, now, error) => s.(db := Fail(cfg, s.db, id, NoLease, now, s.clock, error, false))
    case BeginLook(r, now) => LookStep(cfg, s, r, now)
    case BeginCapacity =>
      s.(lock := if HasRoom(cfg, s.db, s.lock.r.slot, s.clock) then BeginReady(s.lock.r, s.lock.now) else Free)
    case BeginWrite => WriteStep(cfg, s)
    case ClaimLock(slot, now) => s.(lock := ClaimOpen(slot, now))
    case ClaimReap =>
      s.(db := Reap(s.db, s.lock.now), lock := ClaimReaped(s.lock.slot, s.lock.now),
      hist := Exhausted(s.hist, |Reapable(s.db, s.lock.now)|))
    case ClaimRequest =>
      s.(db := RequestWork(cfg, s.db, s.lock.slot, s.clock), lock := ClaimAsked(s.lock.slot, s.lock.now))
    case ClaimSelect =>
      s.(lock := if Selected(cfg, s.db, s.lock.slot, s.clock) then ClaimSelected(s.lock.slot, s.lock.now) else Free)
    case ClaimTake(candidate, locked) => TakeStep(cfg, s, candidate)
    case Abandon => s.(lock := Free)
    case Renew(id, lease, progress) => s.(db := Heartbeat(cfg, s.db, id, lease, progress, s.clock))
    case CompleteJob(id, lease, now, text, segments, path) =>
      CompleteStep(s, id, lease, now, text, segments, path)
    case FailJob(id, lease, now, error, retryable) =>
      s.(db := Fail(cfg, s.db, id, lease, now, s.clock, error, retryable))
    case CancelJob(id, now) => CancelStep(s, id, now)
    case AckJob(id, now) => s.(db := Acknowledge(s.db, id, now))
    case CleanUp(now) =>
      s.(db := Cleanup(s.db, now, cfg.jobTtl), hist := Exhausted(s.hist, |Reapable(s.db, now)|))
    case ReportSlot(slot, ready, now) => s.(db := Report(cfg, s.db, slot, ready, now))
    case RegisterSlot(slot) => s.(db := Register(cfg, s.db, slot, s.clock))
    case MarkPublished(m, now) => s.(db := Published(s.db, m, now))
    case ReconcileAll => s.(db := Reconcile(s.db, s.clock))
  }

  // ----- runs -----

  predicate Run(cfg: Config, tr: seq<Coord>, es: seq<Step>) {
    && ValidConfig(cfg) && |tr| == |es| + 1 && tr[0] == START
    && forall i :: 0 <= i < |es| ==> Enabled(cfg, tr[i], es[i]) && tr[i + 1] == Apply(cfg, tr[i], es[i])
  }

  // ----- the base invariant -----

  predicate JobsInv(cfg: Config, s: Coord) {
    forall id :: id in s.db.jobs ==>
      id < s.db.nextId && RowInv(cfg, s.clock, s.db.nextId, s.db.jobs[id])
  }

  predicate OutboxInv(cfg: Config, s: Coord) {
    && (forall m :: m in s.db.outbox ==>
         m < s.db.nextId && s.db.outbox[m].job in s.db.jobs)
    && (cfg.rabbit ==> forall id :: id in s.db.jobs && s.db.jobs[id].dispatch.Some? ==>
          s.db.jobs[id].dispatch.value in s.db.outbox
          && s.db.outbox[s.db.jobs[id].dispatch.value].job == id)
  }

  // What an open begin_attempt already knows about its row stays true: the row is locked and
  // nobody can renew a lease without the scheduler lock.
  predicate LockInv(cfg: Config, s: Coord) {
    (s.lock.BeginRow? || s.lock.BeginReady? ==>
       && cfg.rabbit && s.lock.now <= s.clock
       && s.lock.r.job in s.db.jobs
       && var j := s.db.jobs[s.lock.r.job];
       && j.dispatch == Some(s.lock.r.message) && Unfinished(j) && !Executing(j, s.clock)
       && j.attempts < j.maxAttempts && Capacity(cfg, s.lock.r.slot.worker) > 0)
    && (s.lock.ClaimOpen? || s.lock.ClaimReaped? || s.lock.ClaimAsked? || s.lock.ClaimSelected? ==>
          !cfg.rabbit && s.lock.now <= s.clock)
  }

  predicate Inv(cfg: Config, s: Coord) {
    JobsInv(cfg, s) && OutboxInv(cfg, s) && LockInv(cfg, s)
  }

  // ----- every step, row by row -----

  predicate StartsJob(s: Coord, e: Step, id: nat) {
    (e.BeginWrite? && s.lock.BeginReady? && s.lock.r.job == id)
    || (e.ClaimTake? && e.candidate == Some(id))
  }

  function ScopeOf(s: Coord, e: Step, t: Coord, id: nat): Scope {
    Scope(s.clock, s.db.nextId, t.db.nextId, StartsJob(s, e, id))
  }

  predicate SingleRow(e: Step) {
    !(e.ClaimReap? || e.CleanUp? || e.ReconcileAll?)
  }

  predicate Ingress(e: Step) {
    e.CreateJob? || e.MarkDownloading? || e.MarkInterrupted? || e.MarkQueued?
  }

  predicate Attempt(e: Step) {
    e.BeginLook? || e.Renew? || e.CompleteJob?
  }

  predicate Client(e: Step) {
    e.CancelJob? || e.AckJob?
  }

  predicate Starting(e: Step) {
    e.BeginWrite? || e.ClaimTake?
  }

  predicate Failing(e: Step) {
    e.FailJob? || e.FailUpload?
  }

  predicate TouchesJobs(e: Step) {
    Ingress(e) || Attempt(e) || Client(e) || Starting(e) || Failing(e) || !SingleRow(e)
  }

  lemma StartRows(cfg: Config, s: Coord, e: Step, id: nat)
    requires ValidConfig(cfg) && Inv(cfg, s) && Enabled(cfg, s, e)
    requires Starting(e)
    ensures var t := Apply(cfg, s, e);
            RowStep(cfg, ScopeOf(s, e, t, id), id, Row(s.db, id), Row(t.db, id))
  {
  }

  // The row a failed attempt or upload writes.
  lemma FailedRow(cfg: Config, s: Coord, e: Step)
    requires ValidConfig(cfg) && Inv(cfg, s) && Enabled(cfg, s, e) && Failing(e)
    requires FailAccepted(s.db, e.id, if e.FailJob? then e.lease else NoLease, e.now)
    ensures var t := Apply(cfg, s, e);
            RowUpdate(cfg, ScopeOf(s, e, t, e.id), s.db.jobs[e.id], t.db.jobs[e.id])
  {
    var t := Apply(cfg, s, e);
    var o, n, sc := s.db.jobs[e.id], t.db.jobs[e.id], ScopeOf(s, e, t, e.id);
    if MayRetry(o, e.FailJob? && e.retryable) {
      assert FailsAndRetries(cfg, sc, o, n);
    } else {
      assert FailsForGood(sc, o, n);
    }
  }

  lemma FailRows(cfg: Config, s: Coord, e: Step, id: nat)
    requires ValidConfig(cfg) && Inv(cfg, s) && Enabled(cfg, s, e) && Failing(e)
    ensures var t := Apply(cfg, s, e);
            RowStep(cfg, ScopeOf(s, e, t, id), id, Row(s.db, id), Row(t.db, id))
  {
    if FailAccepted(s.db, e.id, if e.FailJob? then e.lease else NoLease, e.now) {
      FailedRow(cfg, s, e);
    }
  }

  lemma ReapingRows(cfg: Config, s: Coord, e: Step, id: nat)
    requires ValidConfig(cfg) && Inv(cfg, s) && Enabled(cfg, s, e) && (e.ClaimReap? || e.CleanUp?)
    ensures var t := Apply(cfg, s, e);
            RowStep(cfg, ScopeOf(s, e, t, id), id, Row(s.db, id), Row(t.db, id))
  {
    var t := Apply(cfg, s, e);
    var now := if e.CleanUp? then e.now else s.lock.now;
    ReapRows(s.db, now);
    if id in s.db.jobs && MayReap(s.db.jobs[id], now) {
      assert Exhausts(ScopeOf(s, e, t, id), s.db.jobs[id], ExhaustRow(s.db.jobs[id], now));
    }
  }

  lemma BulkRows(cfg: Config, s: Coord, e: Step, id: nat)
    requires ValidConfig(cfg) && Inv(cfg, s) && Enabled(cfg, s, e) && !SingleRow(e)
    ensures var t := Apply(cfg, s, e);
            RowStep(cfg, ScopeOf(s, e, t, id), id, Row(s.db, id), Row(t.db, id))
  {
    if e.ReconcileAll? {
      var t := Apply(cfg, s, e);
      ReconcileRows(s.db, s.clock);
      if id in s.db.jobs && id in Orphans(Detach(s.db, s.clock)) {
        assert Redispatches(ScopeOf(s, e, t, id), s.db.jobs[id], t.db.jobs[id]);
      }
    } else {
      ReapingRows(cfg, s, e, id);
    }
  }

  lemma IngressRows(cfg: Config, s: Coord, e: Step, id: nat)
    requires ValidConfig(cfg) && Inv(cfg, s) && Enabled(cfg, s, e) && Ingress(e)
    ensures var t := Apply(cfg, s, e);
            RowStep(cfg, ScopeOf(s, e, t, id), id, Row(s.db, id), Row(t.db, id))
  {
    var t := Apply(cfg, s, e);
    if e.MarkQueued? && e.id == id && id in s.db.jobs && Uploading(s.db.jobs[id]) {
      assert Queues(cfg, ScopeOf(s, e, t, id), s.db.jobs[id], t.db.jobs[id]);
    }
  }

  lemma LookRows(cfg: Config, s: Coord, e: Step, id: nat)
    requires ValidConfig(cfg) && Inv(cfg, s) && Enabled(cfg, s, e) && e.BeginLook?
    ensures var t := Apply(cfg, s, e);
            RowStep(cfg, ScopeOf(s, e, t, id), id, Row(s.db, id), Row(t.db, id))
  {
    var t := Apply(cfg, s, e);
    if e.r.job == id && Decide(cfg, s.db, e.r, s.clock).Exhaust? {
      assert Exhausts(ScopeOf(s, e, t, id), s.db.jobs[id], t.db.jobs[id]);
    }
  }

  lemma AttemptRows(cfg: Config, s: Coord, e: Step, id: nat)
    requires ValidConfig(cfg) && Inv(cfg, s) && Enabled(cfg, s, e) && Attempt(e)
    ensures var t := Apply(cfg, s, e);
            RowStep(cfg, ScopeOf(s, e, t, id), id, Row(s.db, id), Row(t.db, id))
  {
    if e.BeginLook? {
      LookRows(cfg, s, e, id);
    }
  }

  lemma ClientRows(cfg: Config, s: Coord, e: Step, id: nat)
    requires ValidConfig(cfg) && Inv(cfg, s) && Enabled(cfg, s, e) && Client(e)
    ensures var t := Apply(cfg, s, e);
            RowStep(cfg, ScopeOf(s, e, t, id), id, Row(s.db, id), Row(t.db, id))
  {
    var t := Apply(cfg, s, e);
    if e.AckJob? && e.id == id && id in s.db.jobs && Terminal(s.db.jobs[id]) {
      assert Acknowledges(ScopeOf(s, e, t, id), s.db.jobs[id], t.db.jobs[id]);
    }
  }

  lemma OtherRows(cfg: Config, s: Coord, e: Step)
    requires Enabled(cfg, s, e) && !TouchesJobs(e)
    ensures Apply(cfg, s, e).db.jobs == s.db.jobs
  {
  }

  // Every step treats every row as the lifecycle allows.
  lemma StepRows(cfg: Config, s: Coord, e: Step, id: nat)
    requires ValidConfig(cfg) && Inv(cfg, s) && Enabled(cfg, s, e)
    ensures var t := Apply(cfg, s, e);
            && s.db.nextId <= t.db.nextId && s.clock <= t.clock
            && RowStep(cfg, ScopeOf(s, e, t, id), id, Row(s.db, id), Row(t.db, id))
  {
    if Starting(e) {
      StartRows(cfg, s, e, id);
    } else if Failing(e) {
      FailRows(cfg, s, e, id);
    } else if Ingress(e) {
      IngressRows(cfg, s, e, id);
    } else if Attempt(e) {
      AttemptRows(cfg, s, e, id);
    } else if Client(e) {
      ClientRows(cfg, s, e, id);
    } else if !SingleRow(e) {
      BulkRows(cfg, s, e, id);
    } else {
      OtherRows(cfg, s, e);
    }
    Forward(cfg, s, e);
  }

  lemma Forward(cfg: Config, s: Coord, e: Step)
    requires ValidConfig(cfg) && Inv(cfg, s) && Enabled(cfg, s, e)
    ensures s.db.nextId <= Apply(cfg, s, e).db.nextId && s.clock <= Apply(cfg, s, e).clock
  {
    match e {
      case ClaimReap => ReapRows(s.db, s.lock.now);
      case CleanUp(now) => ReapRows(s.db, now);
      case ReconcileAll => ReconcileRows(s.db, s.clock);
      case _ =>
    }
  }

  // ----- the base invariant is inductive -----

  lemma JobsKept(cfg: Config, s: Coord, e: Step)
    requires ValidConfig(cfg) && Inv(cfg, s) && Enabled(cfg, s, e)
    ensures JobsInv(cfg, Apply(cfg, s, e))
  {
    var t := Apply(cfg, s, e);
    forall id | id in t.db.jobs
      ensures id < t.db.nextId && RowInv(cfg, t.clock, t.db.nextId, t.db.jobs[id])
    {
      StepRows(cfg, s, e, id);
      RowInvKept(cfg, ScopeOf(s, e, t, id), t.clock, id, Row(s.db, id), t.db.jobs[id]);
    }
  }

  // A row a begin_attempt has locked is out of reach of every other transaction.
  lemma LockedRowKept(cfg: Config, s: Coord, e: Step)
    requires ValidConfig(cfg) && Inv(cfg, s) && Enabled(cfg, s, e)
    requires (s.lock.BeginRow? || s.lock.BeginReady?) && !e.BeginWrite?
    ensures var t := Apply(cfg, s, e);
            s.lock.r.job in t.db.jobs && t.db.jobs[s.lock.r.job] == s.db.jobs[s.lock.r.job]
  {
    match e {
      case CleanUp(now) => ReapRows(s.db, now);
      case _ =>
    }
  }

  lemma LockKept(cfg: Config, s: Coord, e: Step)
    requires ValidConfig(cfg) && Inv(cfg, s) && Enabled(cfg, s, e)
    ensures LockInv(cfg, Apply(cfg, s, e))
  {
    if (s.lock.BeginRow? || s.lock.BeginReady?) && !e.BeginWrite? {
      LockedRowKept(cfg, s, e);
    }
  }

  // ----- the outbox, message by message -----

  // A message keeps its job and its due time until its job is deleted; new messages carry
  // identities drawn by the step and start unpublished.
  predicate OutboxStep(s: Coord, e: Step, t: Coord, m: nat) {
    && (m in s.db.outbox && m in t.db.outbox ==>
         t.db.outbox[m].job == s.db.outbox[m].job
         && t.db.outbox[m].availableAt == s.db.outbox[m].availableAt
         && (t.db.outbox[m].publishedAt == s.db.outbox[m].publishedAt || (e.MarkPublished? && e.m == m)))
    && (m in s.db.outbox && m !in t.db.outbox ==> s.db.outbox[m].job !in t.db.jobs)
    && (m in t.db.outbox && m !in s.db.outbox ==>
         s.db.nextId <= m < t.db.nextId && t.db.outbox[m].publishedAt.None?
         && t.db.outbox[m].job in t.db.jobs)
  }

  // A job that changes its message has the new one waiting in the outbox.
  predicate DispatchStep(s: Coord, t: Coord, id: nat) {
    id in t.db.jobs && t.db.jobs[id].dispatch.Some?
    && (id !in s.db.jobs || s.db.jobs[id].dispatch != t.db.jobs[id].dispatch) ==>
      var m := t.db.jobs[id].dispatch.value;
      s.db.nextId <= m && m in t.db.outbox && t.db.outbox[m].job == id && t.db.outbox[m].publishedAt.None?
  }

  lemma BulkOutbox(cfg: Config, s: Coord, e: Step, id: nat, m: nat)
    requires ValidConfig(cfg) && Inv(cfg, s) && Enabled(cfg, s, e) && !SingleRow(e)
    ensures OutboxStep(s, e, Apply(cfg, s, e), m)
    ensures cfg.rabbit ==> DispatchStep(s, Apply(cfg, s, e), id)
  {
    match e {
      case ClaimReap =>
        ReapRows(s.db, s.lock.now);
      case CleanUp(now) =>
        ReapRows(s.db, now);
      case ReconcileAll =>
        ReconcileRows(s.db, s.clock);
        var mid := Detach(s.db, s.clock);
        if id in mid.jobs && id !in Orphans(mid) {
          assert mid.jobs[id] == s.db.jobs[id];
        }
    }
  }

  lemma IngressOutbox(cfg: Config, s: Coord, e: Step, id: nat, m: nat)
    requires ValidConfig(cfg) && Inv(cfg, s) && Enabled(cfg, s, e) && Ingress(e)
    ensures OutboxStep(s, e, Apply(cfg, s, e), m)
    ensures cfg.rabbit ==> DispatchStep(s, Apply(cfg, s, e), id)
  {
  }

  // One row written and at most one message added, for that row.
  predicate WritesOne(db: Db, d: Db, id: nat) {
    && d.jobs.Keys == db.jobs.Keys && db.nextId <= d.nextId
    && (forall j :: j in db.jobs && d.jobs[j].dispatch != db.jobs[j].dispatch ==>
         j == id && d.jobs[j].dispatch == Some(db.nextId) && db.nextId in d.outbox)
    && (d.outbox == db.outbox
        || (db.nextId < d.nextId && id in d.jobs
            && db.nextId in d.outbox && d.outbox == db.outbox[db.nextId := d.outbox[db.nextId]]
            && d.outbox[db.nextId].job == id && d.outbox[db.nextId].publishedAt.None?))
  }

  lemma FailWrites(cfg: Config, db: Db, id: nat, lease: Lease, now: Time, clock: Time, error: string, retryable: bool)
    requires db.nextId !in db.outbox
    ensures WritesOne(db, Fail(cfg, db, id, lease, now, clock, error, retryable), id)
  {
  }

  lemma WrittenOutbox(s: Coord, e: Step, d: Db, one: nat, id: nat, m: nat)
    requires WritesOne(s.db, d, one) && s.db.nextId !in s.db.outbox
    requires forall o :: o in s.db.outbox ==> s.db.outbox[o].job in s.db.jobs
    ensures OutboxStep(s, e, s.(db := d), m) && DispatchStep(s, s.(db := d), id)
  {
  }

  lemma FailOutbox(cfg: Config, s: Coord, e: Step, id: nat, m: nat)
    requires ValidConfig(cfg) && Inv(cfg, s) && Enabled(cfg, s, e) && Failing(e)
    ensures OutboxStep(s, e, Apply(cfg, s, e), m)
    ensures cfg.rabbit ==> DispatchStep(s, Apply(cfg, s, e), id)
  {
    FailWrites(cfg, s.db, e.id, if e.FailJob? then e.lease else NoLease, e.now, s.clock, e.error,
               e.FailJob? && e.retryable);
    WrittenOutbox(s, e, Apply(cfg, s, e).db, e.id, id, m);
  }

  lemma StartingOutbox(cfg: Config, s: Coord, e: Step, id: nat, m: nat)
    requires ValidConfig(cfg) && Inv(cfg, s) && Enabled(cfg, s, e) && Starting(e)
    ensures var t := Apply(cfg, s, e);
            && OutboxStep(s, e, t, m)
            && (id in t.db.jobs ==> id in s.db.jobs && s.db.jobs[id].dispatch == t.db.jobs[id].dispatch)
  {
  }

  lemma LookOutbox(cfg: Config, s: Coord, e: Step, id: nat, m: nat)
    requires ValidConfig(cfg) && Inv(cfg, s) && Enabled(cfg, s, e) && e.BeginLook?
    ensures var t := Apply(cfg, s, e);
            && OutboxStep(s, e, t, m)
            && (id in t.db.jobs ==> id in s.db.jobs && s.db.jobs[id].dispatch == t.db.jobs[id].dispatch)
  {
  }

  lemma RowOutbox(cfg: Config, s: Coord, e: Step, id: nat, m: nat)
    requires ValidConfig(cfg) && Inv(cfg, s) && Enabled(cfg, s, e) && (e.Renew? || e.CompleteJob? || Client(e))
    ensures var t := Apply(cfg, s, e);
            && OutboxStep(s, e, t, m)
            && (id in t.db.jobs ==> id in s.db.jobs && s.db.jobs[id].dispatch == t.db.jobs[id].dispatch)
  {
  }

  lemma QuietOutbox(cfg: Config, s: Coord, e: Step, id: nat, m: nat)
    requires ValidConfig(cfg) && Inv(cfg, s) && Enabled(cfg, s, e) && !Failing(e) && !Ingress(e)
    requires SingleRow(e)
    ensures var t := Apply(cfg, s, e);
            && OutboxStep(s, e, t, m)
            && (id in t.db.jobs ==> id in s.db.jobs && s.db.jobs[id].dispatch == t.db.jobs[id].dispatch)
  {
    if Starting(e) {
      StartingOutbox(cfg, s, e, id, m);
    } else if e.BeginLook? {
      LookOutbox(cfg, s, e, id, m);
    } else if e.Renew? || e.CompleteJob? || Client(e) {
      RowOutbox(cfg, s, e, id, m);
    } else {
      OtherRows(cfg, s, e);
    }
  }

  lemma StepOutbox(cfg: Config, s: Coord, e: Step, id: nat, m: nat)
    requires ValidConfig(cfg) && Inv(cfg, s) && Enabled(cfg, s, e)
    ensures OutboxStep(s, e, Apply(cfg, s, e), m)
    ensures cfg.rabbit ==> DispatchStep(s, Apply(cfg, s, e), id)
  {
    if !SingleRow(e) {
      BulkOutbox(cfg, s, e, id, m);
    } else if Failing(e) {
      FailOutbox(cfg, s, e, id, m);
    } else if Ingress(e) {
      IngressOutbox(cfg, s, e, id, m);
    } else {
      QuietOutbox(cfg, s, e, id, m);
    }
  }

  lemma OutboxKept(cfg: Config, s: Coord, e: Step)
    requires ValidConfig(cfg) && Inv(cfg, s) && Enabled(cfg, s, e)
    ensures OutboxInv(cfg, Apply(cfg, s, e))
  {
    var t := Apply(cfg, s, e);
    Forward(cfg, s, e);
    forall m | m in t.db.outbox
      ensures m < t.db.nextId && t.db.outbox[m].job in t.db.jobs
    {
      StepOutbox(cfg, s, e, t.db.outbox[m].job, m);
      if m in s.db.outbox {
        StepRows(cfg, s, e, s.db.outbox[m].job);
        MessageDiesWithJob(cfg, s, e, m);
      }
    }
    if cfg.rabbit {
      forall id | id in t.db.jobs && t.db.jobs[id].dispatch.Some?
        ensures t.db.jobs[id].dispatch.value in t.db.outbox
        ensures t.db.outbox[t.db.jobs[id].dispatch.value].job == id
      {
        StepOutbox(cfg, s, e, id, t.db.jobs[id].dispatch.value);
      }
    }
  }

  lemma OnlyCleanupDeletes(cfg: Config, s: Coord, e: Step, id: nat)
    requires ValidConfig(cfg) && Inv(cfg, s) && Enabled(cfg, s, e) && id in s.db.jobs && !e.CleanUp?
    ensures id in Apply(cfg, s, e).db.jobs
  {
    if e.ClaimReap? {
      ReapRows(s.db, s.lock.now);
    } else if e.ReconcileAll? {
      ReconcileRows(s.db, s.clock);
    }
  }

  lemma MessageDiesWithJob(cfg: Config, s: Coord, e: Step, m: nat)
    requires ValidConfig(cfg) && Inv(cfg, s) && Enabled(cfg, s, e)
    requires m in s.db.outbox && m in Apply(cfg, s, e).db.outbox
    ensures s.db.outbox[m].job in Apply(cfg, s, e).db.jobs
  {
    if e.CleanUp? {
      ReapRows(s.db, e.now);
    } else {
      OnlyCleanupDeletes(cfg, s, e, s.db.outbox[m].job);
    }
  }

  lemma InvKept(cfg: Config, s: Coord, e: Step)
    requires ValidConfig(cfg) && Inv(cfg, s) && Enabled(cfg, s, e)
    ensures Inv(cfg, Apply(cfg, s, e))
  {
    JobsKept(cfg, s, e);
    OutboxKept(cfg, s, e);
    LockKept(cfg, s, e);
  }

  lemma {:induction false} RunInv(cfg: Config, tr: seq<Coord>, es: seq<Step>, k: nat)
    requires Run(cfg, tr, es) && k < |tr|
    ensures Inv(cfg, tr[k])
  {
    if k > 0 {
      RunInv(cfg, tr, es, k - 1);
      InvKept(cfg, tr[k - 1], es[k - 1]);
    }
  }

  // One step of a run, with everything that is known where it starts.
  ghost predicate Moves(cfg: Config, s: Coord, e: Step, t: Coord) {
    ValidConfig(cfg) && Inv(cfg, s) && Enabled(cfg, s, e) && t == Apply(cfg, s, e)
  }

  lemma RunMoves(cfg: Config, tr: seq<Coord>, es: seq<Step>, k: nat) returns (s: Coord, e: Step)
    requires Run(cfg, tr, es) && k < |es|
    ensures s == tr[k] && e == es[k] && Moves(cfg, s, e, tr[k + 1])
  {
    RunInv(cfg, tr, es, k);
    s, e := tr[k], es[k];
    assert Enabled(cfg, s, e) && tr[k + 1] == Apply(cfg, s, e);
  }
}
