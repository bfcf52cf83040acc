// Publishing an uploaded file: any number of ingress calls, duplicates among them, that may die at
// any point, beside everything else the coordinator does.
module Publication {
  import opened Base
  import opened Rows
  import opened Queue
  import opened Lifecycle
  import opened Bulk
  import opened Coordinator

  type Bytes = seq<bv8>

  // The input file of a job, or the partial file of one call.
  datatype File = Input(job: nat) | Partial(job: nat, call: nat)

  // How far a call of Submit has come. From Locked to Rejected it is inside reserve_upload and
  // holds the session lock of its request ID.
  datatype Phase =
    | Opening
    | Locked
    | Missing
    | Reserved
    | Marked
    | Tidied
    | Streaming(sent: nat)
    | Closed
    | Published
    | Rejected
    | Ended

  // stream is what the client means to send, job the reserved job.
  datatype Call = Call(opts: Options, stream: Bytes, phase: Phase, job: nat)

  // doomed holds the deleted jobs whose files are still to be unlinked, sources the call whose
  // stream was last renamed to a job's input.
  datatype Ingress = Ingress(
    c: Coord,
    calls: map<nat, Call>,
    files: map<File, Bytes>,
    doomed: set<nat>,
    sources: map<nat, nat>
  )

  datatype Move =
    | Serve(e: Step)
    | Connect(x: nat, opts: Options, stream: Bytes)
    | Lock(x: nat)
    | Look(x: nat, found: Option<nat>)
    | Insert(x: nat, now: Time)
    | Mark(x: nat)
    | Tidy(x: nat)
    | Open(x: nat)
    | Send(x: nat, n: nat)
    | Close(x: nat)
    | Rename(x: nat)
    | Fail(x: nat)
    | Settle(x: nat, now: Time, error: string)
    | Enqueue(x: nat)
    | Die(x: nat)
    | Unlink(f: File)

  const EMPTY_INGRESS: Ingress := Ingress(START, map[], map[], {}, map[])

  predicate Holding(k: Call) {
    !k.phase.Opening? && !k.phase.Ended?
  }

  predicate HasJob(k: Call) {
    Holding(k) && !k.phase.Locked? && !k.phase.Missing?
  }

  predicate In(s: Ingress, x: nat, p: Phase) {
    x in s.calls && s.calls[x].phase == p
  }

  predicate Unclaimed(db: Db, requestId: string) {
    requestId == "" || forall id :: id in db.jobs ==> db.jobs[id].requestId != requestId
  }

  // The row upload_lookup.sql returns.
  predicate Lookup(db: Db, requestId: string, found: Option<nat>) {
    if found.Some? then
      requestId != "" && found.value in db.jobs && db.jobs[found.value].requestId == requestId
    else Unclaimed(db, requestId)
  }

  // The transaction by which a failed call settles its job.
  function Settlement(k: Call, now: Time, error: string): Step {
    if k.opts.requestId != "" && error != "input_too_large" then MarkInterrupted(k.job)
    else FailUpload(k.job, now, error)
  }

  predicate Working(s: Ingress, x: nat) {
    x in s.calls
    && (s.calls[x].phase.Marked? || s.calls[x].phase.Tidied? || s.calls[x].phase.Streaming?
        || s.calls[x].phase.Closed? || s.calls[x].phase.Published?)
  }

  predicate CanMove(cfg: Config, s: Ingress, mv: Move) {
    match mv
    case Serve(e) => Enabled(cfg, s.c, e) && !Coordinator.Ingress(e) && !e.FailUpload?
    case Connect(x, opts, stream) => x !in s.calls
    case Lock(x) => In(s, x, Opening)
    case Look(x, found) => In(s, x, Locked) && Lookup(s.c.db, s.calls[x].opts.requestId, found)
    case Insert(x, now) => In(s, x, Missing) && now <= s.c.clock
    case Mark(x) => In(s, x, Reserved) && Enabled(cfg, s.c, MarkDownloading(s.calls[x].job))
    case Tidy(x) => In(s, x, Marked)
    case Open(x) => In(s, x, Tidied)
    case Send(x, n) =>
      x in s.calls && s.calls[x].phase.Streaming? && s.calls[x].phase.sent + n <= |s.calls[x].stream|
    case Close(x) => x in s.calls && s.calls[x].phase == Streaming(|s.calls[x].stream|)
    case Rename(x) => In(s, x, Closed) && Partial(s.calls[x].job, x) in s.files
    case Fail(x) => Working(s, x)
    case Settle(x, now, error) =>
      In(s, x, Rejected) && error in UPLOAD_ERRORS && Enabled(cfg, s.c, Settlement(s.calls[x], now, error))
    case Enqueue(x) => In(s, x, Published) && Enabled(cfg, s.c, MarkQueued(s.calls[x].job))
    case Die(x) => x in s.calls
    case Unlink(f) => f in s.files && f.job in s.doomed
  }

  function Phased(s: Ingress, x: nat, p: Phase): Ingress
    requires x in s.calls
  {
    s.(calls := s.calls[x := s.calls[x].(phase := p)])
  }

  function WithoutPartials(files: map<File, Bytes>, job: nat): map<File, Bytes> {
    map f | f in files && !(f.Partial? && f.job == job) :: files[f]
  }

  function LookStep(s: Ingress, x: nat, found: Option<nat>): Ingress
    requires x in s.calls && Lookup(s.c.db, s.calls[x].opts.requestId, found)
  {
    var k := s.calls[x];
    if found.None? then Phased(s, x, Missing)
    else if s.c.db.jobs[found.value].retain != k.opts.retain then Phased(s, x, Ended)
    else if !Uploading(s.c.db.jobs[found.value]) then Phased(s, x, Ended)
    else s.(calls := s.calls[x := k.(phase := Reserved, job := found.value)])
  }

  // The unique index on request_id would refuse a second row.
  function InsertStep(cfg: Config, s: Ingress, x: nat, now: Time): Ingress
    requires x in s.calls && now <= s.c.clock
  {
    var k := s.calls[x];
    if !Unclaimed(s.c.db, k.opts.requestId) then Phased(s, x, Ended)
    else s.(c := Apply(cfg, s.c, CreateJob(k.opts, now)),
            calls := s.calls[x := k.(phase := Reserved, job := s.c.db.nextId)])
  }

  function RenameStep(s: Ingress, x: nat): Ingress
    requires In(s, x, Closed) && Partial(s.calls[x].job, x) in s.files
  {
    var k := s.calls[x];
    var partial := Partial(k.job, x);
    Phased(s, x, Published)
    .(files := (s.files - {partial})[Input(k.job) := s.files[partial]], sources := s.sources[k.job := x])
  }

  function Do(cfg: Config, s: Ingress, mv: Move): Ingress
    requires CanMove(cfg, s, mv)
  {
    match mv
    case Serve(e) =>
      var c := Apply(cfg, s.c, e);
      s.(c := c, doomed := s.doomed + (s.c.db.jobs.Keys - c.db.jobs.Keys))
    case Connect(x, opts, stream) => s.(calls := s.calls[x := Call(opts, stream, Opening, 0)])
    case Lock(x) =>
      var k := s.calls[x];
      var busy := k.opts.requestId != ""
                  && exists y :: y in s.calls && Holding(s.calls[y]) && s.calls[y].opts.requestId == k.opts.requestId;
      Phased(s, x, if busy then Ended else Locked)
    case Look(x, found) => LookStep(s, x, found)
    case Insert(x, now) => InsertStep(cfg, s, x, now)
    case Mark(x) => Phased(s, x, Marked).(c := Apply(cfg, s.c, MarkDownloading(s.calls[x].job)))
    case Tidy(x) => Phased(s, x, Tidied).(files := WithoutPartials(s.files, s.calls[x].job))
    case Open(x) => Phased(s, x, Streaming(0)).(files := s.files[Partial(s.calls[x].job, x) := []])
    case Send(x, n) =>
      var k := s.calls[x];
      var partial := Partial(k.job, x);
      var t := Phased(s, x, Streaming(k.phase.sent + n));
      if partial in s.files
      then t.(files := s.files[partial := s.files[partial] + k.stream[k.phase.sent..k.phase.sent + n]])
      else t
    case Close(x) => Phased(s, x, Closed)
    case Rename(x) => RenameStep(s, x)
    case Fail(x) => Phased(s, x, Rejected).(files := s.files - {Partial(s.calls[x].job, x)})
    case Settle(x, now, error) =>
      Phased(s, x, Ended).(c := Apply(cfg, s.c, Settlement(s.calls[x], now, error)))
    case Enqueue(x) => Phased(s, x, Ended).(c := Apply(cfg, s.c, MarkQueued(s.calls[x].job)))
    case Die(x) => Phased(s, x, Ended)
    case Unlink(f) => s.(files := s.files - {f})
  }

  predicate IngressRun(cfg: Config, tr: seq<Ingress>, ms: seq<Move>) {
    && ValidConfig(cfg) && |tr| == |ms| + 1 && tr[0] == EMPTY_INGRESS
    && forall i :: 0 <= i < |ms| ==> CanMove(cfg, tr[i], ms[i]) && tr[i + 1] == Do(cfg, tr[i], ms[i])
  }

  // ----- what a coordinator step means for the uploads -----

  predicate Started(j: Job) {
    Unfinished(j) || j.status.Done?
  }

  lemma OnlyCreateAdds(cfg: Config, c: Coord, e: Step, id: nat)
    requires ValidConfig(cfg) && Inv(cfg, c) && Enabled(cfg, c, e)
    requires id !in c.db.jobs && id in Apply(cfg, c, e).db.jobs
    ensures e.CreateJob? && id == c.db.nextId && Apply(cfg, c, e).db.jobs[id].requestId == e.opts.requestId
    ensures Uploading(Apply(cfg, c, e).db.jobs[id])
  {
    match e {
      case ClaimReap => ReapRows(c.db, c.lock.now);
      case CleanUp(now) => ReapRows(c.db, now);
      case ReconcileAll => ReconcileRows(c.db, c.clock);
      case _ =>
    }
  }

  lemma FailingNeverQueues(cfg: Config, c: Coord, e: Step, id: nat)
    requires ValidConfig(cfg) && Inv(cfg, c) && Enabled(cfg, c, e)
    requires id in c.db.jobs && Uploading(c.db.jobs[id])
    requires Failing(e) && id in Apply(cfg, c, e).db.jobs
    ensures !Started(Apply(cfg, c, e).db.jobs[id])
  {
    assert RowInv(cfg, c.clock, c.db.nextId, c.db.jobs[id]);
  }

  lemma BulkNeverQueues(cfg: Config, c: Coord, e: Step, id: nat)
    requires ValidConfig(cfg) && Inv(cfg, c) && Enabled(cfg, c, e)
    requires id in c.db.jobs && Uploading(c.db.jobs[id])
    requires !SingleRow(e) && id in Apply(cfg, c, e).db.jobs
    ensures !Started(Apply(cfg, c, e).db.jobs[id])
  {
    if e.ClaimReap? {
      ReapRows(c.db, c.lock.now);
    } else if e.CleanUp? {
      ReapRows(c.db, e.now);
    } else {
      ReconcileSparesUploads(c.db, c.clock, id);
    }
  }

  lemma ReconcileSparesUploads(db: Db, clock: Time, id: nat)
    requires id in db.jobs && Uploading(db.jobs[id])
    ensures id in Reconcile(db, clock).jobs && Reconcile(db, clock).jobs[id] == db.jobs[id]
  {
    var mid := Detach(db, clock);
    AdoptEachJobs(mid, Orphans(mid));
  }

  lemma StartingNeverQueues(cfg: Config, c: Coord, e: Step, id: nat)
    requires ValidConfig(cfg) && Inv(cfg, c) && Enabled(cfg, c, e)
    requires id in c.db.jobs && Uploading(c.db.jobs[id])
    requires Starting(e) && id in Apply(cfg, c, e).db.jobs
    ensures !Started(Apply(cfg, c, e).db.jobs[id])
  {
  }

  lemma OnlyMarkQueues(cfg: Config, c: Coord, e: Step, id: nat)
    requires ValidConfig(cfg) && Inv(cfg, c) && Enabled(cfg, c, e)
    requires id in c.db.jobs && Uploading(c.db.jobs[id])
    requires id in Apply(cfg, c, e).db.jobs && Started(Apply(cfg, c, e).db.jobs[id])
    ensures e == MarkQueued(id)
  {
    if Failing(e) {
      FailingNeverQueues(cfg, c, e, id);
    } else if Starting(e) {
      StartingNeverQueues(cfg, c, e, id);
    } else if !SingleRow(e) {
      BulkNeverQueues(cfg, c, e, id);
    } else if !TouchesJobs(e) {
      OtherRows(cfg, c, e);
    }
  }

  lemma RowFacts(cfg: Config, c: Coord, e: Step, id: nat)
    requires ValidConfig(cfg) && Inv(cfg, c) && Enabled(cfg, c, e)
    requires id in c.db.jobs && id in Apply(cfg, c, e).db.jobs
    ensures var o, n := c.db.jobs[id], Apply(cfg, c, e).db.jobs[id];
            && n.requestId == o.requestId && n.retain == o.retain
            && (Uploading(n) ==> Uploading(o))
            && (Started(n) && !Started(o) ==> e == MarkQueued(id) && Uploading(o))
  {
    var t := Apply(cfg, c, e);
    StepRows(cfg, c, e, id);
    var o, n, sc := c.db.jobs[id], t.db.jobs[id], ScopeOf(c, e, t, id);
    if o != n {
      IdentityKept(cfg, sc, o, n);
      if Uploading(o) && Started(n) {
        OnlyMarkQueues(cfg, c, e, id);
      }
    }
  }

  lemma IdentityKept(cfg: Config, sc: Scope, o: Job, n: Job)
    requires RowUpdate(cfg, sc, o, n)
    ensures n.requestId == o.requestId && n.retain == o.retain
    ensures Uploading(n) ==> Uploading(o)
    ensures Terminal(o) ==> n.status == o.status
  {
    if Downloads(o, n) || Interrupts(o, n) || Queues(cfg, sc, o, n) {
    } else if Starts(cfg, sc, o, n) || Renews(cfg, sc, o, n) {
    } else if Completes(sc, o, n) || FailsForGood(sc, o, n) {
    } else if FailsAndRetries(cfg, sc, o, n) {
    } else if Cancels(sc, o, n) || Exhausts(sc, o, n) {
    } else {
      assert Acknowledges(sc, o, n) || Redispatches(sc, o, n);
    }
  }

  // ----- the invariant -----

  // A call that reserved a job uploads for a job of its own request that was not queued yet.
  predicate OwnerInv(s: Ingress, k: Call) {
    && k.job < s.c.db.nextId
    && (k.job in s.c.db.jobs ==>
         s.c.db.jobs[k.job].requestId == k.opts.requestId && !Started(s.c.db.jobs[k.job]))
  }

  // The job's input is the complete stream of the call that last renamed a file to it.
  predicate Filed(s: Ingress, job: nat) {
    && job in s.sources && s.sources[job] in s.calls
    && Input(job) in s.files && s.files[Input(job)] == s.calls[s.sources[job]].stream
  }

  predicate Past(k: Call) {
    k.phase.Published? || k.phase.Rejected? || k.phase.Ended?
  }

  predicate CallInv(s: Ingress, x: nat)
    requires x in s.calls
  {
    var k := s.calls[x];
    var partial := Partial(k.job, x);
    && (HasJob(k) ==> OwnerInv(s, k))
    && (k.phase.Missing? ==> Unclaimed(s.c.db, k.opts.requestId))
    && (k.phase.Streaming? ==> k.phase.sent <= |k.stream|)
    && (k.phase.Streaming? && partial in s.files ==> s.files[partial] == k.stream[..k.phase.sent])
    && (k.phase.Closed? && partial in s.files ==> s.files[partial] == k.stream)
    && (k.phase.Published? && k.job in s.c.db.jobs ==> Filed(s, k.job) && s.sources[k.job] == x)
  }

  predicate Apart(k: Call, l: Call) {
    && !(Holding(k) && Holding(l) && k.opts.requestId != "" && k.opts.requestId == l.opts.requestId)
    && !(HasJob(k) && HasJob(l) && k.job == l.job)
  }

  predicate AllApart(calls: map<nat, Call>) {
    forall x, y :: x in calls && y in calls && x != y ==> Apart(calls[x], calls[y])
  }

  predicate StartedInv(s: Ingress) {
    forall j :: j in s.c.db.jobs && Started(s.c.db.jobs[j]) ==> Filed(s, j)
  }

  // Only a call for the job itself, once it held the whole stream, is the source of its input.
  predicate SourcesInv(s: Ingress) {
    forall j :: j in s.sources ==>
      s.sources[j] in s.calls && s.calls[s.sources[j]].job == j && Past(s.calls[s.sources[j]])
  }

  predicate UniqueRequests(db: Db) {
    forall a, b :: a in db.jobs && b in db.jobs && db.jobs[a].requestId == db.jobs[b].requestId != "" ==> a == b
  }

  predicate IngressInv(cfg: Config, s: Ingress) {
    && Inv(cfg, s.c)
    && (forall x :: x in s.calls ==> CallInv(s, x))
    && AllApart(s.calls)
    && StartedInv(s) && SourcesInv(s)
    && UniqueRequests(s.c.db)
    && (forall j :: j in s.doomed ==> j < s.c.db.nextId && j !in s.c.db.jobs)
  }

  // A coordinator step that creates no row and queues none.
  predicate Neutral(e: Step) {
    !e.CreateJob? && !e.MarkQueued?
  }

  lemma NeutralKeeps(cfg: Config, s: Ingress, e: Step)
    requires ValidConfig(cfg) && IngressInv(cfg, s) && Enabled(cfg, s.c, e) && Neutral(e)
    ensures var c := Apply(cfg, s.c, e);
            IngressInv(cfg, s.(c := c, doomed := s.doomed + (s.c.db.jobs.Keys - c.db.jobs.Keys)))
  {
    var c := Apply(cfg, s.c, e);
    var t := s.(c := c, doomed := s.doomed + (s.c.db.jobs.Keys - c.db.jobs.Keys));
    Coordinator.InvKept(cfg, s.c, e);
    Forward(cfg, s.c, e);
    forall j | j in c.db.jobs
      ensures j in s.c.db.jobs && c.db.jobs[j].requestId == s.c.db.jobs[j].requestId
      ensures Started(c.db.jobs[j]) ==> Started(s.c.db.jobs[j])
    {
      if j !in s.c.db.jobs {
        OnlyCreateAdds(cfg, s.c, e, j);
      } else {
        RowFacts(cfg, s.c, e, j);
      }
    }
    forall x | x in t.calls
      ensures CallInv(t, x)
    {
      assert CallInv(s, x);
    }
    forall j | j in s.c.db.jobs
      ensures j < s.c.db.nextId
    {
    }
  }

  // ----- every move keeps it -----

  // What one call may change beside itself without touching the other calls' files.
  predicate Spares(s: Ingress, x: nat, t: Ingress)
    requires x in t.calls
  {
    && t.c == s.c && t.doomed == s.doomed
    && x in s.calls && t.calls == s.calls[x := t.calls[x]]
    && (forall f :: f in s.files && f.Input? ==> f in t.files && t.files[f] == s.files[f])
    && (forall f :: f in t.files && f.Partial? && f.call != x ==> f in s.files && t.files[f] == s.files[f])
    && (forall y :: y in s.calls && y != x ==> Apart(s.calls[y], t.calls[x]) && Apart(t.calls[x], s.calls[y]))
  }

  // A move within one call, before or after its rename.
  lemma QuietMove(cfg: Config, s: Ingress, x: nat, t: Ingress)
    requires IngressInv(cfg, s) && x in t.calls && Spares(s, x, t) && CallInv(t, x)
    requires t.sources == s.sources && t.calls[x].stream == s.calls[x].stream
    requires !Past(s.calls[x]) || (Past(t.calls[x]) && t.calls[x].job == s.calls[x].job)
    ensures IngressInv(cfg, t)
  {
    forall y | y in t.calls
      ensures CallInv(t, y)
    {
      if y != x {
        assert CallInv(s, y);
      }
    }
  }

  lemma TidyKeeps(cfg: Config, s: Ingress, mv: Move)
    requires ValidConfig(cfg) && IngressInv(cfg, s) && CanMove(cfg, s, mv) && mv.Tidy?
    ensures IngressInv(cfg, Do(cfg, s, mv))
  {
    assert CallInv(s, mv.x);
    QuietMove(cfg, s, mv.x, Do(cfg, s, mv));
  }

  lemma OpenKeeps(cfg: Config, s: Ingress, mv: Move)
    requires ValidConfig(cfg) && IngressInv(cfg, s) && CanMove(cfg, s, mv) && mv.Open?
    ensures IngressInv(cfg, Do(cfg, s, mv))
  {
    assert CallInv(s, mv.x);
    QuietMove(cfg, s, mv.x, Do(cfg, s, mv));
  }

  lemma SendKeeps(cfg: Config, s: Ingress, mv: Move)
    requires ValidConfig(cfg) && IngressInv(cfg, s) && CanMove(cfg, s, mv) && mv.Send?
    ensures IngressInv(cfg, Do(cfg, s, mv))
  {
    assert CallInv(s, mv.x);
    QuietMove(cfg, s, mv.x, Do(cfg, s, mv));
  }

  lemma CloseKeeps(cfg: Config, s: Ingress, x: nat)
    requires ValidConfig(cfg) && IngressInv(cfg, s) && CanMove(cfg, s, Close(x))
    ensures IngressInv(cfg, Do(cfg, s, Close(x)))
  {
    assert CallInv(s, x);
    QuietMove(cfg, s, x, Do(cfg, s, Close(x)));
  }

  lemma FailKeeps(cfg: Config, s: Ingress, x: nat)
    requires ValidConfig(cfg) && IngressInv(cfg, s) && CanMove(cfg, s, Move.Fail(x))
    ensures IngressInv(cfg, Do(cfg, s, Move.Fail(x)))
  {
    assert CallInv(s, x);
    QuietMove(cfg, s, x, Do(cfg, s, Move.Fail(x)));
  }

  // The session lock lets one call of a request in.
  lemma LockKeeps(cfg: Config, s: Ingress, x: nat)
    requires ValidConfig(cfg) && IngressInv(cfg, s) && CanMove(cfg, s, Move.Lock(x))
    ensures IngressInv(cfg, Do(cfg, s, Move.Lock(x)))
  {
    var t := Do(cfg, s, Move.Lock(x));
    assert t == Phased(s, x, t.calls[x].phase) && (t.calls[x].phase.Ended? || t.calls[x].phase.Locked?);
    forall y | y in s.calls && y != x
      ensures Apart(s.calls[y], t.calls[x]) && Apart(t.calls[x], s.calls[y])
    {
      assert Holding(t.calls[x]) && Holding(s.calls[y]) && s.calls[y].opts.requestId == s.calls[x].opts.requestId
        ==> s.calls[x].opts.requestId == "";
    }
    QuietMove(cfg, s, x, t);
  }

  // A job found by its request ID is reserved by nobody else: its caller would hold the same lock.
  lemma LookKeeps(cfg: Config, s: Ingress, x: nat, found: Option<nat>)
    requires ValidConfig(cfg) && IngressInv(cfg, s) && CanMove(cfg, s, Look(x, found))
    ensures IngressInv(cfg, LookStep(s, x, found))
  {
    var t := LookStep(s, x, found);
    assert CallInv(s, x);
    forall y | y in s.calls && y != x
      ensures Apart(s.calls[y], t.calls[x]) && Apart(t.calls[x], s.calls[y])
    {
      assert CallInv(s, y) && Apart(s.calls[x], s.calls[y]) && Apart(s.calls[y], s.calls[x]);
    }
    assert CallInv(t, x);
    QuietMove(cfg, s, x, t);
  }

  // Giving one call another phase or job keeps all calls apart if it stays apart from the others.
  lemma ApartKept(calls: map<nat, Call>, x: nat, k: Call)
    requires AllApart(calls)
    requires forall y :: y in calls && y != x ==> Apart(calls[y], k) && Apart(k, calls[y])
    ensures AllApart(calls[x := k])
  {
  }

  lemma RenameCalls(cfg: Config, s: Ingress, x: nat, y: nat)
    requires ValidConfig(cfg) && IngressInv(cfg, s) && CanMove(cfg, s, Rename(x)) && y in s.calls
    ensures CallInv(RenameStep(s, x), y)
  {
    assert CallInv(s, x) && CallInv(s, y);
    if y != x {
      assert Apart(s.calls[x], s.calls[y]);
    }
  }

  lemma RenameKeeps(cfg: Config, s: Ingress, x: nat)
    requires ValidConfig(cfg) && IngressInv(cfg, s) && CanMove(cfg, s, Rename(x))
    ensures IngressInv(cfg, RenameStep(s, x))
  {
    var t := RenameStep(s, x);
    assert CallInv(s, x);
    forall y | y in t.calls
      ensures CallInv(t, y)
    {
      RenameCalls(cfg, s, x, y);
    }
    forall y | y in s.calls && y != x
      ensures Apart(s.calls[y], t.calls[x]) && Apart(t.calls[x], s.calls[y])
    {
      assert Apart(s.calls[x], s.calls[y]) && Apart(s.calls[y], s.calls[x]);
    }
    ApartKept(s.calls, x, t.calls[x]);
    forall j | j in t.c.db.jobs && Started(t.c.db.jobs[j])
      ensures Filed(t, j)
    {
      assert Filed(s, j);
    }
  }

  lemma InsertCalls(cfg: Config, s: Ingress, x: nat, now: Time, y: nat)
    requires ValidConfig(cfg) && IngressInv(cfg, s) && CanMove(cfg, s, Insert(x, now)) && y in s.calls
    requires Unclaimed(s.c.db, s.calls[x].opts.requestId)
    ensures var t := InsertStep(cfg, s, x, now);
            CallInv(t, y) && (y != x ==> Apart(s.calls[y], t.calls[x]) && Apart(t.calls[x], s.calls[y]))
  {
    assert CallInv(s, x) && CallInv(s, y);
    if y != x {
      assert Apart(s.calls[x], s.calls[y]) && Apart(s.calls[y], s.calls[x]);
    }
  }

  lemma InsertFiles(cfg: Config, s: Ingress, x: nat, now: Time)
    requires ValidConfig(cfg) && IngressInv(cfg, s) && CanMove(cfg, s, Insert(x, now))
    requires Unclaimed(s.c.db, s.calls[x].opts.requestId)
    ensures StartedInv(InsertStep(cfg, s, x, now)) && UniqueRequests(InsertStep(cfg, s, x, now).c.db)
  {
    var t := InsertStep(cfg, s, x, now);
    forall j | j in t.c.db.jobs && Started(t.c.db.jobs[j])
      ensures Filed(t, j)
    {
      assert Filed(s, j);
    }
  }

  // The insert never meets the unique index, and the new job belongs to nobody else.
  lemma InsertKeeps(cfg: Config, s: Ingress, x: nat, now: Time)
    requires ValidConfig(cfg) && IngressInv(cfg, s) && CanMove(cfg, s, Insert(x, now))
    ensures IngressInv(cfg, InsertStep(cfg, s, x, now))
    ensures Unclaimed(s.c.db, s.calls[x].opts.requestId)
  {
    var t := InsertStep(cfg, s, x, now);
    var id := s.c.db.nextId;
    assert CallInv(s, x);
    Coordinator.InvKept(cfg, s.c, CreateJob(s.calls[x].opts, now));
    assert t.c.db.jobs == s.c.db.jobs[id := t.c.db.jobs[id]] && id !in s.c.db.jobs;
    forall y | y in t.calls
      ensures CallInv(t, y) && (y != x ==> Apart(s.calls[y], t.calls[x]) && Apart(t.calls[x], s.calls[y]))
    {
      InsertCalls(cfg, s, x, now, y);
    }
    ApartKept(s.calls, x, t.calls[x]);
    InsertFiles(cfg, s, x, now);
  }

  // What queueing one job does to the rows.
  predicate QueuesOnly(c: Coord, job: nat, d: Coord) {
    && d.db.jobs.Keys == c.db.jobs.Keys && c.db.nextId <= d.db.nextId
    && forall j :: j in d.db.jobs ==>
      d.db.jobs[j].requestId == c.db.jobs[j].requestId && (j != job ==> d.db.jobs[j] == c.db.jobs[j])
  }

  lemma MarkQueuesOnly(cfg: Config, c: Coord, job: nat)
    requires Enabled(cfg, c, MarkQueued(job))
    ensures QueuesOnly(c, job, Apply(cfg, c, MarkQueued(job)))
  {
  }

  lemma QueuedCalls(s: Ingress, x: nat, d: Coord, y: nat)
    requires In(s, x, Published) && CallInv(s, x) && QueuesOnly(s.c, s.calls[x].job, d)
    requires y in s.calls && CallInv(s, y) && (y != x ==> Apart(s.calls[x], s.calls[y]))
    ensures CallInv(Phased(s, x, Ended).(c := d), y)
  {
  }

  lemma QueuedFiles(s: Ingress, x: nat, d: Coord)
    requires In(s, x, Published) && CallInv(s, x) && QueuesOnly(s.c, s.calls[x].job, d) && StartedInv(s)
    ensures StartedInv(Phased(s, x, Ended).(c := d))
  {
    var t := Phased(s, x, Ended).(c := d);
    forall j | j in d.db.jobs && Started(d.db.jobs[j])
      ensures Filed(t, j)
    {
      assert j == s.calls[x].job || Filed(s, j);
    }
  }

  lemma EnqueueKeeps(cfg: Config, s: Ingress, x: nat)
    requires ValidConfig(cfg) && IngressInv(cfg, s) && CanMove(cfg, s, Move.Enqueue(x))
    ensures IngressInv(cfg, Do(cfg, s, Move.Enqueue(x)))
  {
    var job := s.calls[x].job;
    var d := Apply(cfg, s.c, MarkQueued(job));
    Coordinator.InvKept(cfg, s.c, MarkQueued(job));
    MarkQueuesOnly(cfg, s.c, job);
    QueuedKeeps(cfg, s, x, d);
  }

  lemma QueuedKeeps(cfg: Config, s: Ingress, x: nat, d: Coord)
    requires IngressInv(cfg, s) && In(s, x, Published) && Inv(cfg, d) && QueuesOnly(s.c, s.calls[x].job, d)
    ensures IngressInv(cfg, Phased(s, x, Ended).(c := d))
  {
    var t := Phased(s, x, Ended).(c := d);
    assert CallInv(s, x);
    forall y | y in t.calls
      ensures CallInv(t, y)
    {
      QueuedCalls(s, x, d, y);
    }
    ApartKept(s.calls, x, t.calls[x]);
    QueuedFiles(s, x, d);
  }

  lemma UnlinkKeeps(cfg: Config, s: Ingress, f: File)
    requires ValidConfig(cfg) && IngressInv(cfg, s) && CanMove(cfg, s, Unlink(f))
    ensures IngressInv(cfg, s.(files := s.files - {f}))
  {
    var t := s.(files := s.files - {f});
    forall y | y in t.calls
      ensures CallInv(t, y)
    {
      assert CallInv(s, y);
    }
  }

  lemma PhaseKeeps(cfg: Config, s: Ingress, x: nat, p: Phase)
    requires IngressInv(cfg, s) && x in s.calls && (p.Ended? || (p.Marked? && s.calls[x].phase.Reserved?))
    ensures IngressInv(cfg, Phased(s, x, p))
  {
    assert CallInv(s, x);
    QuietMove(cfg, s, x, Phased(s, x, p));
  }

  lemma DeletesNothing(cfg: Config, c: Coord, e: Step)
    requires Enabled(cfg, c, e) && (e.MarkDownloading? || e.MarkInterrupted? || e.FailUpload?)
    ensures Apply(cfg, c, e).db.jobs.Keys == c.db.jobs.Keys
  {
  }

  // Settling a failed call and marking a download leave the calls as the queue's other steps do.
  lemma PhaseAndServe(cfg: Config, s: Ingress, x: nat, e: Step, p: Phase)
    requires ValidConfig(cfg) && IngressInv(cfg, s) && Enabled(cfg, s.c, e)
    requires e.MarkDownloading? || e.MarkInterrupted? || e.FailUpload?
    requires x in s.calls && (p.Ended? || (p.Marked? && s.calls[x].phase.Reserved?))
    ensures IngressInv(cfg, Phased(s, x, p).(c := Apply(cfg, s.c, e)))
  {
    PhaseKeeps(cfg, s, x, p);
    var t := Phased(s, x, p);
    NeutralKeeps(cfg, t, e);
    DeletesNothing(cfg, t.c, e);
    assert t.doomed + (t.c.db.jobs.Keys - Apply(cfg, t.c, e).db.jobs.Keys) == s.doomed;
  }

  lemma ConnectKeeps(cfg: Config, s: Ingress, x: nat, opts: Options, stream: Bytes)
    requires IngressInv(cfg, s) && x !in s.calls
    ensures IngressInv(cfg, s.(calls := s.calls[x := Call(opts, stream, Opening, 0)]))
  {
    var t := s.(calls := s.calls[x := Call(opts, stream, Opening, 0)]);
    ApartKept(s.calls, x, t.calls[x]);
    forall y | y in t.calls
      ensures CallInv(t, y)
    {
      assert y != x ==> CallInv(s, y);
    }
  }

  // The moves that take a step of the coordinator.
  lemma ServingKeeps(cfg: Config, s: Ingress, mv: Move)
    requires ValidConfig(cfg) && IngressInv(cfg, s) && CanMove(cfg, s, mv)
    requires mv.Serve? || mv.Insert? || mv.Mark? || mv.Settle? || mv.Enqueue?
    ensures IngressInv(cfg, Do(cfg, s, mv))
  {
    match mv {
      case Serve(e) => NeutralKeeps(cfg, s, e);
      case Insert(x, now) => InsertKeeps(cfg, s, x, now);
      case Mark(x) => PhaseAndServe(cfg, s, x, MarkDownloading(s.calls[x].job), Marked);
      case Settle(x, now, error) => PhaseAndServe(cfg, s, x, Settlement(s.calls[x], now, error), Ended);
      case Enqueue(x) => EnqueueKeeps(cfg, s, x);
    }
  }

  // The moves on files.
  lemma FilingKeeps(cfg: Config, s: Ingress, mv: Move)
    requires ValidConfig(cfg) && IngressInv(cfg, s) && CanMove(cfg, s, mv)
    requires mv.Tidy? || mv.Open? || mv.Send? || mv.Rename? || mv.Unlink?
    ensures IngressInv(cfg, Do(cfg, s, mv))
  {
    match mv {
      case Tidy(x) => TidyKeeps(cfg, s, mv);
      case Open(x) => OpenKeeps(cfg, s, mv);
      case Send(x, n) => SendKeeps(cfg, s, mv);
      case Rename(x) => RenameKeeps(cfg, s, x);
      case Unlink(f) => UnlinkKeeps(cfg, s, f);
    }
  }

  lemma MoveKeeps(cfg: Config, s: Ingress, mv: Move)
    requires ValidConfig(cfg) && IngressInv(cfg, s) && CanMove(cfg, s, mv)
    ensures IngressInv(cfg, Do(cfg, s, mv))
  {
    if mv.Serve? || mv.Insert? || mv.Mark? || mv.Settle? || mv.Enqueue? {
      ServingKeeps(cfg, s, mv);
    } else if mv.Tidy? || mv.Open? || mv.Send? || mv.Rename? || mv.Unlink? {
      FilingKeeps(cfg, s, mv);
    } else {
      match mv {
        case Connect(x, opts, stream) => ConnectKeeps(cfg, s, x, opts, stream);
        case Lock(x) => LockKeeps(cfg, s, x);
        case Look(x, found) => LookKeeps(cfg, s, x, found);
        case Close(x) => CloseKeeps(cfg, s, x);
        case Fail(x) => FailKeeps(cfg, s, x);
        case Die(x) => PhaseKeeps(cfg, s, x, Ended);
      }
    }
  }

  lemma StepKeeps(cfg: Config, tr: seq<Ingress>, ms: seq<Move>, k: nat)
    requires IngressRun(cfg, tr, ms) && k < |ms| && IngressInv(cfg, tr[k])
    ensures IngressInv(cfg, tr[k + 1])
  {
    var s, mv := tr[k], ms[k];
    assert CanMove(cfg, s, mv) && tr[k + 1] == Do(cfg, s, mv);
    MoveKeeps(cfg, s, mv);
  }

  lemma {:induction false} RunKeeps(cfg: Config, tr: seq<Ingress>, ms: seq<Move>, k: nat)
    requires IngressRun(cfg, tr, ms) && k < |tr|
    ensures IngressInv(cfg, tr[k])
  {
    if k > 0 {
      RunKeeps(cfg, tr, ms, k - 1);
      StepKeeps(cfg, tr, ms, k - 1);
    }
  }

  // ----- the guarantees -----

  // A non-empty request ID names at most one job, whatever duplicates and crashes there were, and
  // the session lock alone sees to it: no insert is ever refused by the unique index.
  lemma OneJobPerRequest(cfg: Config, tr: seq<Ingress>, ms: seq<Move>, k: nat, a: nat, b: nat)
    requires IngressRun(cfg, tr, ms) && k < |tr|
    requires a in tr[k].c.db.jobs && b in tr[k].c.db.jobs
    requires tr[k].c.db.jobs[a].requestId == tr[k].c.db.jobs[b].requestId != ""
    ensures a == b
    ensures forall x :: In(tr[k], x, Missing) ==> Unclaimed(tr[k].c.db, tr[k].calls[x].opts.requestId)
  {
    RunKeeps(cfg, tr, ms, k);
    forall x | In(tr[k], x, Missing)
      ensures Unclaimed(tr[k].c.db, tr[k].calls[x].opts.requestId)
    {
      assert CallInv(tr[k], x);
    }
  }

  // A queued, running or finished job has exactly the bytes of one complete stream as its input.
  lemma InputIsOneStream(cfg: Config, tr: seq<Ingress>, ms: seq<Move>, k: nat, job: nat) returns (x: nat)
    requires IngressRun(cfg, tr, ms) && k < |tr|
    requires job in tr[k].c.db.jobs && Started(tr[k].c.db.jobs[job])
    ensures x in tr[k].calls && tr[k].calls[x].job == job && Past(tr[k].calls[x])
    ensures Input(job) in tr[k].files && tr[k].files[Input(job)] == tr[k].calls[x].stream
  {
    RunKeeps(cfg, tr, ms, k);
    assert Filed(tr[k], job);
    x := tr[k].sources[job];
  }

  // No call is about to write this job's input, and none ever will be.
  ghost predicate Sealed(s: Ingress, job: nat) {
    && job < s.c.db.nextId
    && (job in s.c.db.jobs ==> !Uploading(s.c.db.jobs[job]))
    && forall x :: x in s.calls && HasJob(s.calls[x]) ==> s.calls[x].job != job
  }

  lemma StartedIsSealed(cfg: Config, s: Ingress, job: nat)
    requires IngressInv(cfg, s) && job in s.c.db.jobs && Started(s.c.db.jobs[job])
    ensures Sealed(s, job)
  {
    forall x | x in s.calls && HasJob(s.calls[x])
      ensures s.calls[x].job != job
    {
      assert CallInv(s, x);
    }
  }

  // The coordinator step a move takes.
  function StepOf(s: Ingress, mv: Move): Option<Step> {
    match mv
    case Serve(e) => Some(e)
    case Insert(x, now) => if x in s.calls then Some(CreateJob(s.calls[x].opts, now)) else None
    case Mark(x) => if x in s.calls then Some(MarkDownloading(s.calls[x].job)) else None
    case Settle(x, now, error) => if x in s.calls then Some(Settlement(s.calls[x], now, error)) else None
    case Enqueue(x) => if x in s.calls then Some(MarkQueued(s.calls[x].job)) else None
    case _ => None
  }

  lemma MoveServes(cfg: Config, s: Ingress, mv: Move)
    requires ValidConfig(cfg) && IngressInv(cfg, s) && CanMove(cfg, s, mv)
    ensures var e := StepOf(s, mv);
            if e.Some? then Enabled(cfg, s.c, e.value) && Do(cfg, s, mv).c == Apply(cfg, s.c, e.value)
            else Do(cfg, s, mv).c == s.c
  {
    if mv.Insert? {
      InsertKeeps(cfg, s, mv.x, mv.now);
    }
  }

  lemma SealedRows(cfg: Config, s: Ingress, mv: Move, job: nat)
    requires ValidConfig(cfg) && IngressInv(cfg, s) && CanMove(cfg, s, mv) && Sealed(s, job)
    ensures var t := Do(cfg, s, mv);
            job < t.c.db.nextId && (job in t.c.db.jobs ==> job in s.c.db.jobs && !Uploading(t.c.db.jobs[job]))
  {
    MoveServes(cfg, s, mv);
    var e := StepOf(s, mv);
    if e.Some? {
      Forward(cfg, s.c, e.value);
      if job in Apply(cfg, s.c, e.value).db.jobs {
        if job in s.c.db.jobs {
          RowFacts(cfg, s.c, e.value, job);
        } else {
          OnlyCreateAdds(cfg, s.c, e.value, job);
        }
      }
    }
  }

  // Only a lookup or an insert gives a call a job.
  lemma JobsGiven(cfg: Config, s: Ingress, mv: Move, y: nat)
    requires CanMove(cfg, s, mv) && y in Do(cfg, s, mv).calls && HasJob(Do(cfg, s, mv).calls[y])
    requires !mv.Look? && !mv.Insert?
    ensures y in s.calls && HasJob(s.calls[y]) && s.calls[y].job == Do(cfg, s, mv).calls[y].job
  {
  }

  lemma SealedCalls(cfg: Config, s: Ingress, mv: Move, job: nat, y: nat)
    requires ValidConfig(cfg) && IngressInv(cfg, s) && CanMove(cfg, s, mv) && Sealed(s, job)
    requires y in Do(cfg, s, mv).calls && HasJob(Do(cfg, s, mv).calls[y])
    ensures Do(cfg, s, mv).calls[y].job != job
  {
    if !mv.Look? && !mv.Insert? {
      JobsGiven(cfg, s, mv, y);
    }
  }

  lemma SealedFiles(cfg: Config, s: Ingress, mv: Move, job: nat)
    requires ValidConfig(cfg) && IngressInv(cfg, s) && CanMove(cfg, s, mv) && Sealed(s, job)
    requires job in s.c.db.jobs && Input(job) in s.files
    ensures Input(job) in Do(cfg, s, mv).files && Do(cfg, s, mv).files[Input(job)] == s.files[Input(job)]
  {
  }

  // The sealed input of a job, if its row is there.
  predicate Keeps(s: Ingress, job: nat, content: Bytes) {
    job in s.c.db.jobs ==> Input(job) in s.files && s.files[Input(job)] == content
  }

  ghost predicate Moves(cfg: Config, s: Ingress, mv: Move, t: Ingress) {
    ValidConfig(cfg) && IngressInv(cfg, s) && CanMove(cfg, s, mv) && t == Do(cfg, s, mv)
  }

  lemma RunMoves(cfg: Config, tr: seq<Ingress>, ms: seq<Move>, k: nat) returns (s: Ingress, mv: Move)
    requires IngressRun(cfg, tr, ms) && 0 < k < |tr|
    ensures s == tr[k - 1] && mv == ms[k - 1] && Moves(cfg, s, mv, tr[k])
  {
    RunKeeps(cfg, tr, ms, k - 1);
    s, mv := tr[k - 1], ms[k - 1];
    assert CanMove(cfg, s, mv) && tr[k] == Do(cfg, s, mv);
  }

  lemma SealedStep(cfg: Config, s: Ingress, mv: Move, t: Ingress, job: nat, content: Bytes)
    requires Moves(cfg, s, mv, t)
    requires Sealed(s, job) && Keeps(s, job, content)
    ensures Sealed(t, job) && Keeps(t, job, content)
  {
    SealedRows(cfg, s, mv, job);
    forall y | y in t.calls && HasJob(t.calls[y])
      ensures t.calls[y].job != job
    {
      SealedCalls(cfg, s, mv, job, y);
    }
    if job in t.c.db.jobs {
      SealedFiles(cfg, s, mv, job);
    }
  }

  lemma SealedMove(cfg: Config, tr: seq<Ingress>, ms: seq<Move>, k: nat, job: nat, content: Bytes)
    requires IngressRun(cfg, tr, ms) && 0 < k < |tr|
    requires Sealed(tr[k - 1], job) && Keeps(tr[k - 1], job, content)
    ensures Sealed(tr[k], job) && Keeps(tr[k], job, content)
  {
    var s, mv := RunMoves(cfg, tr, ms, k);
    SealedStep(cfg, s, mv, tr[k], job, content);
  }

  lemma SealedFrom(cfg: Config, tr: seq<Ingress>, ms: seq<Move>, i: nat, job: nat)
    requires IngressRun(cfg, tr, ms) && i < |tr|
    requires job in tr[i].c.db.jobs && Started(tr[i].c.db.jobs[job])
    ensures Input(job) in tr[i].files && Sealed(tr[i], job)
  {
    RunKeeps(cfg, tr, ms, i);
    StartedIsSealed(cfg, tr[i], job);
    assert Filed(tr[i], job);
  }

  // From the moment a job is queued its input never changes while its row is there.
  lemma {:induction false} InputUnchanged(cfg: Config, tr: seq<Ingress>, ms: seq<Move>, i: nat, k: nat, job: nat)
    requires IngressRun(cfg, tr, ms) && i <= k < |tr|
    requires job in tr[i].c.db.jobs && Started(tr[i].c.db.jobs[job])
    ensures Input(job) in tr[i].files && Sealed(tr[k], job) && Keeps(tr[k], job, tr[i].files[Input(job)])
    decreases k
  {
    SealedFrom(cfg, tr, ms, i, job);
    if i < k {
      InputUnchanged(cfg, tr, ms, i, k - 1, job);
      SealedMove(cfg, tr, ms, k, job, tr[i].files[Input(job)]);
    }
  }
}
