// The trigger of migration 0004: totals per worker and event that survive row deletion.
module Observations {
  import opened Base
  import opened Rows

  datatype Event =
    | Submitted | Attempts | Retries | QueueWait | LeaseExpirations | AttemptFailures
    | Completed | Processing | Turnaround | Cancelled | Failures

  datatype Key = Key(worker: string, event: Event)

  type Counters = map<Key, nat>

  // SPLIT_PART(lease_owner, '/', 1)
  function LeaseWorker(lease: Lease): string {
    if lease.Lease? then lease.worker else ""
  }

  // COALESCE(NULLIF(w, ''), 'ingress')
  function KeyOf(worker: string, event: Event): Key {
    Key(if worker == "" then "ingress" else worker, event)
  }

  function Count(c: Counters, k: Key): nat {
    if k in c then c[k] else 0
  }

  function Bump(c: Counters, k: Key): Counters {
    c[k := Count(c, k) + 1]
  }

  function Record(c: Counters, es: seq<Key>): Counters
    decreases |es|
  {
    if es == [] then c else Record(Bump(c, es[0]), es[1..])
  }

  // What one UPDATE of status or attempts observes, in the order of the trigger's branches.

  function AttemptEvents(o: Job, n: Job): seq<Key> {
    if n.attempts > o.attempts then
      [KeyOf(LeaseWorker(n.lease), Attempts),
       KeyOf(LeaseWorker(n.lease), if n.attempts > 1 then Retries else QueueWait)]
    else []
  }

  function ExpiryEvents(o: Job, n: Job): seq<Key> {
    if o.status.Running?
       && (n.attempts > o.attempts || (n.status.Failed? && n.error == "attempts_exhausted"))
    then [KeyOf(LeaseWorker(o.lease), LeaseExpirations)] else []
  }

  function FailureEvents(o: Job, n: Job): seq<Key> {
    if o.status.Running? && (n.status.Queued? || n.status.Failed?) && n.error != "cancelled"
    then [KeyOf(LeaseWorker(o.lease), AttemptFailures)] else []
  }

  function OutcomeEvents(o: Job, n: Job): seq<Key> {
    var w := LeaseWorker(o.lease);
    if n.status.Done? && !o.status.Done? then
      [KeyOf(w, Completed)]
      + (if o.attemptStartedAt.Some? then [KeyOf(w, Processing)] else [])
      + [KeyOf(w, Turnaround)]
    else if n.status.Failed? && !Terminal(o) then
      [KeyOf(w, if n.error == "cancelled" then Cancelled else Failures)]
    else []
  }

  function Events(o: Job, n: Job): seq<Key> {
    AttemptEvents(o, n) + ExpiryEvents(o, n) + FailureEvents(o, n) + OutcomeEvents(o, n)
  }

  // Totals over all workers.

  ghost function Pick(c: Counters): (k: Key)
    requires c != map[]
    ensures k in c
  {
    var k :| k in c;
    k
  }

  ghost function Weight(c: Counters, k: Key, e: Event): nat
    requires k in c
  {
    if k.event == e then c[k] else 0
  }

  ghost function Total(c: Counters, e: Event): nat
    decreases |c|
  {
    if c == map[] then 0 else Weight(c, Pick(c), e) + Total(c - {Pick(c)}, e)
  }

  // Any key may be split off first, not only the one the definition picks.
  lemma {:induction false} TotalSplit(c: Counters, k: Key, e: Event)
    requires k in c
    ensures Total(c, e) == Weight(c, k, e) + Total(c - {k}, e)
    decreases |c|
  {
    var p := Pick(c);
    if p != k {
      TotalSplit(c - {p}, k, e);
      TotalSplit(c - {k}, p, e);
      assert c - {p} - {k} == c - {k} - {p};
    }
  }

  lemma TotalBump(c: Counters, k: Key, e: Event)
    ensures Total(Bump(c, k), e) == Total(c, e) + (if k.event == e then 1 else 0)
  {
    var b := Bump(c, k);
    TotalSplit(b, k, e);
    if k in c {
      TotalSplit(c, k, e);
      assert b - {k} == c - {k};
    } else {
      assert b - {k} == c;
    }
  }

  function Occurrences(es: seq<Key>, e: Event): nat {
    if es == [] then 0 else (if es[0].event == e then 1 else 0) + Occurrences(es[1..], e)
  }

  lemma {:induction false} OccurrencesAppend(a: seq<Key>, b: seq<Key>, e: Event)
    ensures Occurrences(a + b, e) == Occurrences(a, e) + Occurrences(b, e)
  {
    if a == [] {
      assert a + b == b;
    } else {
      OccurrencesAppend(a[1..], b, e);
      assert (a + b)[1..] == a[1..] + b;
    }
  }

  // Recording observations moves every total by exactly the number of its observations,
  // whichever workers they belong to.
  lemma {:induction false} TotalRecord(c: Counters, es: seq<Key>, e: Event)
    ensures Total(Record(c, es), e) == Total(c, e) + Occurrences(es, e)
    decreases |es|
  {
    if es != [] {
      TotalRecord(Bump(c, es[0]), es[1..], e);
      TotalBump(c, es[0], e);
    }
  }

  function Once(b: bool): nat {
    if b then 1 else 0
  }

  lemma Pair(a: Key, b: Key, e: Event)
    ensures Occurrences([a, b], e) == Once(a.event == e) + Once(b.event == e)
  {
    assert [a, b] == [a] + [b];
    OccurrencesAppend([a], [b], e);
  }

  lemma AttemptCounts(o: Job, n: Job, e: Event)
    ensures Occurrences(AttemptEvents(o, n), e)
         == if n.attempts > o.attempts
            then Once(e.Attempts?) + Once(if n.attempts > 1 then e.Retries? else e.QueueWait?)
            else 0
  {
    if n.attempts > o.attempts {
      var w := LeaseWorker(n.lease);
      Pair(KeyOf(w, Attempts), KeyOf(w, if n.attempts > 1 then Retries else QueueWait), e);
    }
  }

  lemma OutcomeCounts(o: Job, n: Job, e: Event)
    ensures n.status.Done? && !o.status.Done? ==>
              Occurrences(OutcomeEvents(o, n), e)
              == Once(e.Completed?) + Once(e.Processing? && o.attemptStartedAt.Some?)
                 + Once(e.Turnaround?)
    ensures !n.status.Done? ==>
              Occurrences(OutcomeEvents(o, n), e)
              == if n.status.Failed? && !Terminal(o)
                 then Once(if n.error == "cancelled" then e.Cancelled? else e.Failures?)
                 else 0
  {
    var w := LeaseWorker(o.lease);
    if n.status.Done? && !o.status.Done? {
      var mid := if o.attemptStartedAt.Some? then [KeyOf(w, Processing)] else [];
      OccurrencesAppend([KeyOf(w, Completed)], mid, e);
      OccurrencesAppend([KeyOf(w, Completed)] + mid, [KeyOf(w, Turnaround)], e);
    }
  }

  // How often one UPDATE observes each event.
  function Expected(o: Job, n: Job, e: Event): nat {
    match e
    case Submitted => 0
    case Attempts => Once(n.attempts > o.attempts)
    case Retries => Once(n.attempts > o.attempts && n.attempts > 1)
    case QueueWait => Once(n.attempts > o.attempts && n.attempts <= 1)
    case LeaseExpirations =>
      Once(o.status.Running?
           && (n.attempts > o.attempts || (n.status.Failed? && n.error == "attempts_exhausted")))
    case AttemptFailures =>
      Once(o.status.Running? && (n.status.Queued? || n.status.Failed?) && n.error != "cancelled")
    case Completed => Once(n.status.Done? && !o.status.Done?)
    case Processing => Once(n.status.Done? && !o.status.Done? && o.attemptStartedAt.Some?)
    case Turnaround => Once(n.status.Done? && !o.status.Done?)
    case Cancelled => Once(n.status.Failed? && !Terminal(o) && n.error == "cancelled")
    case Failures => Once(n.status.Failed? && !Terminal(o) && n.error != "cancelled")
  }

  lemma OccurrencesOfFour(a: seq<Key>, x: seq<Key>, f: seq<Key>, t: seq<Key>, e: Event)
    ensures Occurrences(a + x + f + t, e)
         == Occurrences(a, e) + Occurrences(x, e) + Occurrences(f, e) + Occurrences(t, e)
  {
    OccurrencesAppend(a, x, e);
    OccurrencesAppend(a + x, f, e);
    OccurrencesAppend(a + x + f, t, e);
  }

  lemma EventCounts(o: Job, n: Job, e: Event)
    ensures Occurrences(Events(o, n), e) == Expected(o, n, e)
  {
    OccurrencesOfFour(AttemptEvents(o, n), ExpiryEvents(o, n), FailureEvents(o, n), OutcomeEvents(o, n), e);
    AttemptCounts(o, n, e);
    OutcomeCounts(o, n, e);
  }
}
