// The database of the durable queue and the effect of each statement or transaction on it.
// now is the start of the transaction (NOW()), clock the reading of clock_timestamp() in the
// statement; a transaction that waited for a lock has now < clock.
module Queue {
  import opened Base
  import opened Rows
  import opened Observations

  datatype Policy = Policy(priority: nat, capacity: nat)

  datatype Config = Config(
    leaseSeconds: nat,
    maxAttempts: nat,
    demandTtl: nat,
    availabilityTtl: nat,
    jobTtl: nat,
    policies: map<string, Policy>,
    rabbit: bool
  )

  predicate ValidConfig(cfg: Config) {
    && cfg.leaseSeconds >= 3 && cfg.maxAttempts >= 1
    && 5 <= cfg.demandTtl <= 60 && 30 <= cfg.availabilityTtl <= 600
    && (forall w :: w in cfg.policies ==> cfg.policies[w].priority <= 10000 && cfg.policies[w].capacity <= 32)
    && (cfg.rabbit ==> cfg.policies != map[])
  }

  // A worker without a policy may run nothing.
  function Capacity(cfg: Config, worker: string): nat {
    if worker in cfg.policies then cfg.policies[worker].capacity else 0
  }

  // A row of worker_availability. -1 stands for '-infinity'.
  datatype Availability = Availability(readyUntil: int, demandUntil: int, consumerUntil: int)

  // A row of transcription_outbox.
  datatype Outgoing = Outgoing(job: nat, availableAt: Time, publishedAt: Option<Time>)

  // nextId stands for uuid4 and gen_random_uuid: the next job, message or lease identity.
  datatype Db = Db(
    jobs: map<nat, Job>,
    slots: map<Slot, Availability>,
    outbox: map<nat, Outgoing>,
    counters: Counters,
    nextId: nat
  )

  const EMPTY: Db := Db(map[], map[], map[], map[], 0)

  // ----- single rows -----

  // An UPDATE that lists status or attempts fires the observation trigger.
  function Write(db: Db, id: nat, n: Job): Db
    requires id in db.jobs
  {
    db.(jobs := db.jobs[id := n], counters := Record(db.counters, Events(db.jobs[id], n)))
  }

  // An UPDATE that lists neither does not.
  function Set(db: Db, id: nat, n: Job): Db
    requires id in db.jobs
  {
    db.(jobs := db.jobs[id := n])
  }

  function Create(cfg: Config, db: Db, opts: Options, now: Time): Db {
    db.(jobs := db.jobs[db.nextId := NewJob(cfg.maxAttempts, opts, now)],
    counters := Bump(db.counters, Key("ingress", Submitted)), nextId := db.nextId + 1)
  }

  // storage.py _enqueue: dispatch.sql and outbox_insert.sql.
  function Enqueue(db: Db, id: nat, clock: Time, delay: nat): Db
    requires id in db.jobs
  {
    var m := db.nextId;
    Set(db, id, db.jobs[id].(dispatch := Some(m)))
    .(outbox := db.outbox[m := Outgoing(id, clock + delay * SECOND, None)], nextId := m + 1)
  }

  function Download(db: Db, id: nat): Db {
    if id in db.jobs && Uploading(db.jobs[id]) then Write(db, id, DownloadRow(db.jobs[id])) else db
  }

  function Interrupt(db: Db, id: nat): Db {
    if id in db.jobs && Uploading(db.jobs[id]) then Set(db, id, InterruptRow(db.jobs[id])) else db
  }

  function Submit(cfg: Config, db: Db, id: nat, clock: Time): Db {
    if id in db.jobs && Uploading(db.jobs[id]) then
      var d := Write(db, id, QueueRow(db.jobs[id]));
      if cfg.rabbit then Enqueue(d, id, clock, 0) else d
    else db
  }

  function Cancel(db: Db, id: nat, now: Time): Db {
    if id in db.jobs && !Terminal(db.jobs[id]) then Write(db, id, CancelRow(db.jobs[id], now)) else db
  }

  function Acknowledge(db: Db, id: nat, now: Time): Db {
    if id in db.jobs && Terminal(db.jobs[id]) then Set(db, id, AckRow(db.jobs[id], now)) else db
  }

  // ----- fenced writes of one attempt -----

  predicate RenewAccepted(db: Db, id: nat, lease: Lease, clock: Time) {
    id in db.jobs && MayRenew(db.jobs[id], lease, clock)
  }

  function Heartbeat(cfg: Config, db: Db, id: nat, lease: Lease, progress: real, clock: Time): Db {
    if RenewAccepted(db, id, lease, clock)
    then Set(db, id, RenewRow(db.jobs[id], clock + cfg.leaseSeconds * SECOND, progress)) else db
  }

  predicate CompleteAccepted(db: Db, id: nat, lease: Lease, now: Time) {
    id in db.jobs && MayComplete(db.jobs[id], lease, now)
  }

  function Complete(db: Db, id: nat, lease: Lease, now: Time,
                    text: string, segments: string, path: string): Db {
    if CompleteAccepted(db, id, lease, now)
    then Write(db, id, CompleteRow(db.jobs[id], now, text, segments, path)) else db
  }

  function Pow2(n: nat): (p: nat)
    ensures p > 0
  {
    if n == 0 then 1 else 2 * Pow2(n - 1)
  }

  function Min(a: nat, b: nat): nat {
    if a <= b then a else b
  }

  // Seconds before the next delivery after a attempts.
  function RetryDelay(attempts: nat): nat {
    Min(300, Pow2(Min(attempts, 8)))
  }

  predicate FailAccepted(db: Db, id: nat, lease: Lease, now: Time) {
    id in db.jobs && MayFail(db.jobs[id], lease, now)
  }

  function Fail(cfg: Config, db: Db, id: nat, lease: Lease, now: Time, clock: Time,
                error: string, retryable: bool): Db {
    if FailAccepted(db, id, lease, now) then
      var d := Write(db, id, FailRow(db.jobs[id], now, error, retryable));
      if cfg.rabbit && d.jobs[id].status.Queued?
      then Enqueue(d, id, clock, RetryDelay(d.jobs[id].attempts)) else d
    else db
  }

  // ----- execution leases of a pool -----

  function Active(db: Db, worker: string, clock: Time): set<nat> {
    set id | id in db.jobs && Executing(db.jobs[id], clock) && db.jobs[id].slot.worker == worker
  }

  predicate SlotBusy(db: Db, slot: Slot, clock: Time) {
    exists id :: id in db.jobs && Executing(db.jobs[id], clock) && db.jobs[id].slot == slot
  }

  // ----- broker_job.sql, broker_capacity.sql, broker_start.sql -----

  datatype BeginRequest = BeginRequest(slot: Slot, job: nat, message: nat, delivery: nat)

  datatype Decision = Discard | Resume(lease: Lease) | Busy | Exhaust | Proceed

  // storage.py begin_attempt up to the capacity query.
  function Decide(cfg: Config, db: Db, r: BeginRequest, clock: Time): Decision {
    if r.job !in db.jobs then Discard else
      var j := db.jobs[r.job];
      if j.dispatch != Some(r.message) || Terminal(j) then Discard
      else if Executing(j, clock) then
        if j.delivery == Some(r.delivery) && j.slot == r.slot then Resume(j.lease) else Busy
      else if !Unfinished(j) then Discard
      else if j.attempts >= j.maxAttempts then Exhaust
      else if Capacity(cfg, r.slot.worker) == 0 then Busy
      else Proceed
  }

  function ExhaustJob(db: Db, id: nat, now: Time): Db
    requires id in db.jobs
  {
    Write(db, id, ExhaustRow(db.jobs[id], now))
  }

  predicate Admitted(db: Db, slot: Slot, clock: Time) {
    slot in db.slots && db.slots[slot].readyUntil > clock && db.slots[slot].consumerUntil > clock
  }

  predicate HasRoom(cfg: Config, db: Db, slot: Slot, clock: Time) {
    Admitted(db, slot, clock) && !SlotBusy(db, slot, clock)
    && |Active(db, slot.worker, clock)| < Capacity(cfg, slot.worker)
  }

  function FreshLease(db: Db, slot: Slot): Lease {
    Lease(slot.worker, db.nextId)
  }

  function StartJob(cfg: Config, db: Db, r: BeginRequest, now: Time, clock: Time): Db
    requires r.job in db.jobs
  {
    Write(db, r.job, StartRow(db.jobs[r.job], FreshLease(db, r.slot), now,
                              clock + cfg.leaseSeconds * SECOND, r.slot, r.delivery))
    .(nextId := db.nextId + 1)
  }

  // ----- broker_admit.sql -----

  function AdmittedSlots(db: Db, worker: string, clock: Time): set<string> {
    set s | s in db.slots && s.worker == worker && Admitted(db, s, clock) :: s.instance
  }

  function LeasedSlots(db: Db, worker: string, clock: Time): set<string> {
    set id | id in Active(db, worker, clock) :: db.jobs[id].slot.instance
  }

  function Occupied(db: Db, worker: string, clock: Time): set<string> {
    AdmittedSlots(db, worker, clock) + LeasedSlots(db, worker, clock)
  }

  predicate Admits(cfg: Config, db: Db, slot: Slot, clock: Time) {
    Capacity(cfg, slot.worker) != 0
    && slot in db.slots && db.slots[slot].readyUntil > clock
    && (slot.instance in Occupied(db, slot.worker, clock)
        || |Occupied(db, slot.worker, clock)| < Capacity(cfg, slot.worker))
  }

  function Register(cfg: Config, db: Db, slot: Slot, clock: Time): Db {
    if Admits(cfg, db, slot, clock)
    then db.(slots := db.slots[slot := db.slots[slot].(consumerUntil := db.slots[slot].readyUntil)])
    else db
  }

  // ----- cleanup_availability.sql and report_availability.sql -----

  const DAY: nat := 86400 * SECOND

  function RecentSlots(slots: map<Slot, Availability>, now: Time): map<Slot, Availability> {
    map s | s in slots && slots[s].readyUntil >= now - DAY :: slots[s]
  }

  function Reported(cfg: Config, row: Option<Availability>, ready: bool, now: Time): Availability {
    var until := now + (if ready then cfg.availabilityTtl else 0) * SECOND;
    match row
    case None => Availability(until, now + (if ready then cfg.demandTtl else 0) * SECOND, -1)
    case Some(a) =>
      a.(readyUntil := until, consumerUntil := if a.consumerUntil > now then until else a.consumerUntil)
  }

  function Report(cfg: Config, db: Db, slot: Slot, ready: bool, now: Time): Db {
    var recent := RecentSlots(db.slots, now);
    var row := if slot in recent then Some(recent[slot]) else None;
    db.(slots := recent[slot := Reported(cfg, row, ready, now)])
  }

  // ----- reap.sql, request_work.sql, select_worker.sql, claim_slot.sql -----

  function Reapable(db: Db, now: Time): set<nat> {
    set id | id in db.jobs && MayReap(db.jobs[id], now)
  }

  function ReapEach(db: Db, ids: set<nat>, now: Time): Db
    requires ids <= db.jobs.Keys
    decreases |ids|
  {
    if ids == {} then db
    else ReapEach(ExhaustJob(db, Least(ids), now), ids - {Least(ids)}, now)
  }

  function Reap(db: Db, now: Time): Db {
    ReapEach(db, Reapable(db, now), now)
  }

  function RequestWork(cfg: Config, db: Db, slot: Slot, clock: Time): Db {
    if slot in db.slots && db.slots[slot].readyUntil > clock
    then db.(slots := db.slots[slot := db.slots[slot].(demandUntil := clock + cfg.demandTtl * SECOND)])
    else db
  }

  predicate Eligible(cfg: Config, db: Db, slot: Slot, clock: Time) {
    && slot in db.slots && slot.worker in cfg.policies
    && db.slots[slot].readyUntil > clock && db.slots[slot].demandUntil > clock
    && !SlotBusy(db, slot, clock)
    && !SlotBusy(db, Slot(slot.worker, ""), clock)
    && |Active(db, slot.worker, clock)| < cfg.policies[slot.worker].capacity
  }

  predicate Selected(cfg: Config, db: Db, slot: Slot, clock: Time) {
    Eligible(cfg, db, slot, clock)
    && forall other :: other in db.slots && Eligible(cfg, db, other, clock) ==>
                         cfg.policies[slot.worker].priority <= cfg.policies[other.worker].priority
  }

  predicate Claimable(j: Job, clock: Time) {
    Unfinished(j) && j.attempts < j.maxAttempts && (j.status.Queued? || Expired(j, clock))
  }

  predicate Before(db: Db, a: nat, b: nat)
    requires a in db.jobs && b in db.jobs
  {
    db.jobs[a].createdAt < db.jobs[b].createdAt
    || (db.jobs[a].createdAt == db.jobs[b].createdAt && a <= b)
  }

  // The first claimable row in (created_at, job_id) order that no other transaction has locked.
  predicate IsCandidate(db: Db, id: nat, locked: set<nat>, clock: Time) {
    id in db.jobs && id !in locked && Claimable(db.jobs[id], clock)
    && forall o :: o in db.jobs && o !in locked && Claimable(db.jobs[o], clock) ==> Before(db, id, o)
  }

  function TakeJob(cfg: Config, db: Db, id: nat, slot: Slot, now: Time, clock: Time): Db
    requires id in db.jobs
  {
    Write(db, id, ClaimRow(db.jobs[id], FreshLease(db, slot), now,
                           clock + cfg.leaseSeconds * SECOND, slot))
    .(nextId := db.nextId + 1)
  }

  // ----- cleanup.sql; the outbox rows of a deleted job go with it -----

  function Purge(db: Db, ids: set<nat>): Db {
    db.(jobs := db.jobs - ids, outbox := map m | m in db.outbox && db.outbox[m].job !in ids :: db.outbox[m])
  }

  function Deletable(db: Db, now: Time, ttl: nat): set<nat> {
    set id | id in db.jobs && MayDelete(db.jobs[id], now, ttl)
  }

  function Cleanup(db: Db, now: Time, ttl: nat): Db {
    var d := Reap(db, now);
    Purge(d, Deletable(d, now, ttl))
  }

  // ----- the outbox -----

  predicate Due(db: Db, m: nat, locked: set<nat>, clock: Time) {
    m in db.outbox && m !in locked && db.outbox[m].publishedAt.None? && db.outbox[m].availableAt <= clock
  }

  predicate Earlier(db: Db, a: nat, b: nat)
    requires a in db.outbox && b in db.outbox
  {
    db.outbox[a].availableAt < db.outbox[b].availableAt
    || (db.outbox[a].availableAt == db.outbox[b].availableAt && a <= b)
  }

  // outbox_next.sql
  predicate IsNext(db: Db, m: nat, locked: set<nat>, clock: Time) {
    Due(db, m, locked, clock)
    && forall o :: o in db.outbox && Due(db, o, locked, clock) ==> Earlier(db, m, o)
  }

  function Published(db: Db, m: nat, now: Time): Db {
    if m in db.outbox then db.(outbox := db.outbox[m := db.outbox[m].(publishedAt := Some(now))]) else db
  }

  // ----- broker_reconcile.sql followed by broker_seed.sql -----

  predicate Detachable(j: Job, clock: Time) {
    j.status.Queued? || (j.status.Running? && Expired(j, clock))
  }

  function Detach(db: Db, clock: Time): Db {
    db.(jobs := map id | id in db.jobs ::
      if Detachable(db.jobs[id], clock) then db.jobs[id].(dispatch := None) else db.jobs[id])
  }

  function Orphans(db: Db): set<nat> {
    set id | id in db.jobs && Unfinished(db.jobs[id]) && db.jobs[id].dispatch.None?
  }

  function Adopt(db: Db, id: nat): Db
    requires id in db.jobs
  {
    var m := db.nextId;
    Set(db, id, db.jobs[id].(dispatch := Some(m)))
    .(outbox := db.outbox[m := Outgoing(id, db.jobs[id].createdAt, None)], nextId := m + 1)
  }

  function AdoptEach(db: Db, ids: set<nat>): Db
    requires ids <= db.jobs.Keys
    decreases |ids|
  {
    if ids == {} then db else AdoptEach(Adopt(db, Least(ids)), ids - {Least(ids)})
  }

  function Seed(db: Db): Db {
    AdoptEach(db, Orphans(db))
  }

  function Reconcile(db: Db, clock: Time): Db {
    Seed(Detach(db, clock))
  }
}
