// No upload is ever shut out: whatever happened before, a client whose request ID is new, or names a
// job that is still uploading, can have its stream queued as the input of that one job.
module Intake {
  import opened Base
  import opened Rows
  import opened Queue
  import opened Lifecycle
  import opened Coordinator
  import opened Publication

  function Try(cfg: Config): (Ingress, Move) -> Option<Ingress> {
    (s: Ingress, mv: Move) => if CanMove(cfg, s, mv) then Some(Do(cfg, s, mv)) else None
  }

  lemma GoOn(cfg: Config, tr: seq<Ingress>, ms: seq<Move>, mv: Move) returns (tr': seq<Ingress>, ms': seq<Move>)
    requires IngressRun(cfg, tr, ms) && CanMove(cfg, tr[|ms|], mv)
    ensures IngressRun(cfg, tr', ms') && tr <= tr' && ms <= ms' && |ms'| == |ms| + 1
    ensures tr'[|ms'|] == Do(cfg, tr[|ms|], mv)
  {
    tr', ms' := tr + [Do(cfg, tr[|ms|], mv)], ms + [mv];
  }

  lemma {:induction false} RunOn(cfg: Config, tr: seq<Ingress>, ms: seq<Move>, more: seq<Move>, t: Ingress)
    returns (tr': seq<Ingress>, ms': seq<Move>)
    requires IngressRun(cfg, tr, ms) && After(Try(cfg), tr[|ms|], more) == Some(t)
    ensures IngressRun(cfg, tr', ms') && tr <= tr' && ms <= ms' && |ms'| == |ms| + |more|
    ensures tr'[|ms'|] == t
    decreases |more|
  {
    tr', ms' := tr, ms;
    if more != [] {
      tr', ms' := GoOn(cfg, tr, ms, more[0]);
      tr', ms' := RunOn(cfg, tr', ms', more[1..], t);
    }
  }

  // ----- the session lock -----

  predicate Unheld(s: Ingress, requestId: string) {
    requestId == "" || forall y :: y in s.calls && Holding(s.calls[y]) ==> s.calls[y].opts.requestId != requestId
  }

  // At most one call is in the way; its process may die.
  lemma Release(cfg: Config, s: Ingress, requestId: string) returns (ms: seq<Move>, t: Ingress)
    requires AllApart(s.calls)
    ensures |ms| <= 1 && After(Try(cfg), s, ms) == Some(t)
    ensures t == s.(calls := t.calls) && t.calls.Keys == s.calls.Keys && Unheld(t, requestId)
  {
    ms, t := [], s;
    if y :| y in s.calls && Holding(s.calls[y]) && s.calls[y].opts.requestId == requestId != "" {
      ms, t := [Die(y)], Do(cfg, s, Die(y));
      One(Try(cfg), s, Die(y));
      forall z | z in t.calls && Holding(t.calls[z])
        ensures t.calls[z].opts.requestId != requestId
      {
        assert z != y && Apart(s.calls[y], s.calls[z]);
      }
    }
  }

  lemma Enter(cfg: Config, s: Ingress, x: nat, opts: Options, stream: Bytes) returns (ms: seq<Move>, t: Ingress)
    requires x !in s.calls && Unheld(s, opts.requestId)
    ensures |ms| == 2 && After(Try(cfg), s, ms) == Some(t)
    ensures t == s.(calls := s.calls[x := Call(opts, stream, Locked, 0)])
  {
    var u := Do(cfg, s, Connect(x, opts, stream));
    t := Do(cfg, u, Lock(x));
    ms := [Connect(x, opts, stream), Lock(x)];
    Two(Try(cfg), s, Connect(x, opts, stream), u, Lock(x));
  }

  // ----- the job -----

  // The call may still upload for its job: nobody has queued it, and no attempt has locked its row.
  predicate Reserves(s: Ingress, x: nat, opts: Options, stream: Bytes, job: nat) {
    && x in s.calls && s.calls[x] == Call(opts, stream, s.calls[x].phase, job)
    && job in s.c.db.jobs && Uploading(s.c.db.jobs[job]) && !RowLocked(s.c.lock, job)
    && s.c.db.jobs[job].requestId == opts.requestId && s.c.db.jobs[job].retain == opts.retain
  }

  // A job this client may upload for.
  predicate Resumable(db: Db, opts: Options, found: Option<nat>) {
    Lookup(db, opts.requestId, found)
    && (found.Some? ==> Uploading(db.jobs[found.value]) && db.jobs[found.value].retain == opts.retain)
  }

  lemma Reserve(cfg: Config, s: Ingress, x: nat, opts: Options, stream: Bytes, found: Option<nat>)
    returns (ms: seq<Move>, t: Ingress, job: nat)
    requires Inv(cfg, s.c) && In(s, x, Locked) && s.calls[x] == Call(opts, stream, Locked, 0)
    requires Resumable(s.c.db, opts, found)
    ensures |ms| <= 2 && After(Try(cfg), s, ms) == Some(t)
    ensures Reserves(t, x, opts, stream, job) && t.calls[x].phase.Reserved?
    ensures job == if found.Some? then found.value else s.c.db.nextId
  {
    var u := Do(cfg, s, Look(x, found));
    if found.Some? {
      job, ms, t := found.value, [Look(x, found)], u;
      One(Try(cfg), s, Look(x, found));
    } else {
      job, ms, t := s.c.db.nextId, [Look(x, found), Insert(x, s.c.clock)], Do(cfg, u, Insert(x, s.c.clock));
      Two(Try(cfg), s, Look(x, found), u, Insert(x, s.c.clock));
    }
  }

  // ----- the stream -----

  lemma Prepare(cfg: Config, s: Ingress, x: nat, opts: Options, stream: Bytes, job: nat)
    returns (ms: seq<Move>, t: Ingress)
    requires Reserves(s, x, opts, stream, job) && s.calls[x].phase.Reserved?
    ensures |ms| == 2 && After(Try(cfg), s, ms) == Some(t)
    ensures Reserves(t, x, opts, stream, job) && t.calls[x].phase.Tidied?
  {
    var u := Do(cfg, s, Mark(x));
    t := Do(cfg, u, Tidy(x));
    ms := [Mark(x), Tidy(x)];
    Two(Try(cfg), s, Mark(x), u, Tidy(x));
  }

  lemma Receive(cfg: Config, s: Ingress, x: nat, opts: Options, stream: Bytes, job: nat)
    returns (ms: seq<Move>, t: Ingress)
    requires Reserves(s, x, opts, stream, job) && s.calls[x].phase.Tidied?
    ensures |ms| == 2 && After(Try(cfg), s, ms) == Some(t)
    ensures Reserves(t, x, opts, stream, job) && t.calls[x].phase == Streaming(|stream|)
    ensures Partial(job, x) in t.files && t.files[Partial(job, x)] == stream
  {
    var u := Do(cfg, s, Open(x));
    t := Do(cfg, u, Send(x, |stream|));
    ms := [Open(x), Send(x, |stream|)];
    Two(Try(cfg), s, Open(x), u, Send(x, |stream|));
    assert [] + stream[0..|stream|] == stream;
  }

  lemma Publish(cfg: Config, s: Ingress, x: nat, opts: Options, stream: Bytes, job: nat)
    returns (ms: seq<Move>, t: Ingress)
    requires Reserves(s, x, opts, stream, job) && s.calls[x].phase == Streaming(|stream|)
    requires Partial(job, x) in s.files && s.files[Partial(job, x)] == stream
    ensures |ms| == 2 && After(Try(cfg), s, ms) == Some(t)
    ensures Reserves(t, x, opts, stream, job) && t.calls[x].phase.Published?
    ensures Input(job) in t.files && t.files[Input(job)] == stream
  {
    var u := Do(cfg, s, Close(x));
    t := Do(cfg, u, Rename(x));
    ms := [Close(x), Rename(x)];
    Two(Try(cfg), s, Close(x), u, Rename(x));
  }

  // ----- all of it -----

  // The job waits with exactly this input, and in RabbitMQ mode so does its message.
  predicate Submitted(cfg: Config, s: Ingress, opts: Options, stream: Bytes, job: nat) {
    && job in s.c.db.jobs && s.c.db.jobs[job].status.Queued?
    && s.c.db.jobs[job].requestId == opts.requestId && s.c.db.jobs[job].retain == opts.retain
    && Input(job) in s.files && s.files[Input(job)] == stream
    && (cfg.rabbit ==>
         s.c.db.jobs[job].dispatch.Some?
         && s.c.db.jobs[job].dispatch.value in s.c.db.outbox
         && s.c.db.outbox[s.c.db.jobs[job].dispatch.value] == Outgoing(job, s.c.clock, None))
  }

  lemma Submit(cfg: Config, s: Ingress, x: nat, opts: Options, stream: Bytes, job: nat)
    returns (ms: seq<Move>, t: Ingress)
    requires Reserves(s, x, opts, stream, job) && s.calls[x].phase.Reserved?
    ensures |ms| == 7 && After(Try(cfg), s, ms) == Some(t) && Submitted(cfg, t, opts, stream, job)
  {
    var a, u := Prepare(cfg, s, x, opts, stream, job);
    var b, v := Receive(cfg, u, x, opts, stream, job);
    var c, w := Publish(cfg, v, x, opts, stream, job);
    t := Do(cfg, w, Move.Enqueue(x));
    ms := a + (b + (c + [Move.Enqueue(x)]));
    One(Try(cfg), w, Move.Enqueue(x));
    Both(Try(cfg), v, c, w, [Move.Enqueue(x)]);
    Both(Try(cfg), u, b, v, c + [Move.Enqueue(x)]);
    Both(Try(cfg), s, a, u, b + (c + [Move.Enqueue(x)]));
  }

  // No upload is shut out: every run has a continuation of at most 12 moves in which a new call with
  // any options and any stream gets it queued, as the input of a new job if the request ID is new and
  // of the job it names if that is still uploading with the same retention.
  lemma EveryUploadCanFinish(cfg: Config, tr: seq<Ingress>, ms: seq<Move>, x: nat, opts: Options, stream: Bytes,
                             found: Option<nat>)
    returns (tr': seq<Ingress>, ms': seq<Move>)
    requires IngressRun(cfg, tr, ms) && x !in tr[|ms|].calls && Resumable(tr[|ms|].c.db, opts, found)
    ensures IngressRun(cfg, tr', ms') && tr <= tr' && ms <= ms' && |ms'| <= |ms| + 12
    ensures Submitted(cfg, tr'[|ms'|], opts, stream, if found.Some? then found.value else tr[|ms|].c.db.nextId)
  {
    RunKeeps(cfg, tr, ms, |ms|);
    var s := tr[|ms|];
    var a, u := Release(cfg, s, opts.requestId);
    var b, v := Enter(cfg, u, x, opts, stream);
    var c, w, job := Reserve(cfg, v, x, opts, stream, found);
    var d, t := Submit(cfg, w, x, opts, stream, job);
    Both(Try(cfg), v, c, w, d);
    Both(Try(cfg), u, b, v, c + d);
    Both(Try(cfg), s, a, u, b + (c + d));
    tr', ms' := RunOn(cfg, tr, ms, a + (b + (c + d)), t);
  }
}
