// The drain signal of an update that does not replace anything: the old container, the actions of
// update and recover on it, and whoever restarts or stops it in between. The journal records the
// process that was inspected; the signal goes to whichever process runs when it is sent.
module StrayDrain {
  import opened Base
  import opened Containers
  import opened Updater

  // How far the updater has come. Recovering is any time before a recover that has an entry.
  datatype Stage =
    | Resting
    | Inspected(snapshot: Container)
    | Entered
    | Asked
    | Recovering
    | Examined(seen: Container)
    | Swapping

  // memory and disk are the journal entry, asked is the process that SIGUSR1 reached and that no
  // SIGUSR2 has reached since. StartedAt comes from the clock.
  datatype World = World(
    worker: Container,
    clock: nat,
    memory: Option<Pending>,
    disk: Option<Pending>,
    stage: Stage,
    asked: Option<nat>
  )

  // effect: the call took effect; ok: the updater was told so; written: the journal reached the disk.
  datatype Move =
    | Restart
    | Exit
    | Probe(healthy: bool)
    | Inspect
    | Skip
    | Enter(image: string, written: bool, ok: bool)
    | Ask(effect: bool, ok: bool)
    | GiveUp
    | Swap
    | Examine
    | Resume(effect: bool, ok: bool, written: bool)
    | Crash

  function Fresh(name: string): World {
    World(Container(name, true, true, 0, false, true), 0, None, None, Resting, None)
  }

  predicate CanMove(w: World, mv: Move) {
    match mv
    case Restart => true
    case Exit => true
    case Probe(healthy) => w.worker.running
    case Inspect => w.stage.Resting? && w.memory.None? && w.worker.running
    case Skip => w.stage.Inspected?
    case Enter(image, written, ok) => w.stage.Inspected? && w.stage.snapshot.healthy && (ok ==> written)
    case Ask(effect, ok) => w.stage.Entered? && (ok ==> effect) && (effect ==> w.worker.running)
    case GiveUp => w.stage.Asked?
    case Swap => w.stage.Asked?
    case Examine => w.stage.Recovering? && w.memory.Some?
    case Resume(effect, ok, written) =>
      w.stage.Examined? && w.memory.Some?
      && (match ResumeFor(w.stage.seen, w.memory.value)
          case StartAgain => (ok ==> effect) && (effect ==> !w.worker.running)
          case CancelDrain => (ok ==> effect) && (effect ==> w.worker.running)
          case LeaveAlone => ok && !effect)
    case Crash => !w.stage.Swapping?
  }

  function Resumed(w: World, effect: bool): World
    requires w.stage.Examined? && w.memory.Some?
  {
    if !effect then w
    else match ResumeFor(w.stage.seen, w.memory.value)
      case StartAgain => w.(worker := Start(w.worker, w.clock + 1), clock := w.clock + 1)
      case CancelDrain => w.(worker := w.worker.(draining := false), asked := None)
      case LeaveAlone => w
  }

  function Do(w: World, mv: Move): World
    requires CanMove(w, mv)
  {
    match mv
    case Restart => w.(worker := Start(w.worker, w.clock + 1), clock := w.clock + 1)
    case Exit => w.(worker := Stop(w.worker))
    case Probe(healthy) => w.(worker := w.worker.(healthy := healthy))
    case Inspect => w.(stage := Inspected(w.worker))
    case Skip => w.(stage := Resting)
    case Enter(image, written, ok) =>
      var entry := Some(Pending(0, w.stage.snapshot.started, w.stage.snapshot.name, "worker", image));
      w.(memory := entry, disk := if written then entry else w.disk, stage := if ok then Entered else Recovering)
    case Ask(effect, ok) =>
      var a := w.(stage := if ok then Asked else Recovering);
      if effect then a.(worker := w.worker.(draining := true), asked := Some(w.worker.started)) else a
    case GiveUp => w.(stage := Recovering)
    case Swap => w.(stage := Swapping)
    case Examine => w.(stage := Examined(w.worker))
    case Resume(effect, ok, written) =>
      var r := Resumed(w, effect);
      if ok then r.(stage := Resting, memory := None, disk := if written then None else w.disk)
      else r.(stage := Recovering)
    case Crash => w.(memory := w.disk, stage := if w.disk.Some? then Recovering else Resting)
  }

  predicate Run(tr: seq<World>, ms: seq<Move>) {
    |tr| == |ms| + 1
    && forall k :: 0 <= k < |ms| ==> CanMove(tr[k], ms[k]) && tr[k + 1] == Do(tr[k], ms[k])
  }

  // A recover that runs to its end, whether or not its last save reaches the disk.
  predicate Completes(w: World, mv: Move) {
    mv.Resume? && mv.ok
  }

  // The process that was examined, if it has not been restarted since.
  predicate ExaminedInv(w: World) {
    w.stage.Examined? ==>
      w.stage.seen.started <= w.clock
      && (w.stage.seen.draining ==> w.stage.seen.running)
      && (w.worker.draining && w.stage.seen.started == w.worker.started ==> w.stage.seen.running)
      && (w.worker.draining ==> w.worker.started == w.stage.seen.started)
  }

  predicate Inv(w: World) {
    && w.worker.started <= w.clock
    && (w.asked.Some? ==> w.asked.value <= w.clock)
    && (w.worker.draining <==> w.worker.running && w.asked == Some(w.worker.started))
    && ExaminedInv(w)
  }

  lemma InvKept(w: World, mv: Move)
    requires Inv(w) && CanMove(w, mv)
    ensures Inv(Do(w, mv))
  {
  }

  lemma {:induction false} RunInv(tr: seq<World>, ms: seq<Move>, name: string, k: nat)
    requires Run(tr, ms) && tr[0] == Fresh(name) && k < |tr|
    ensures Inv(tr[k])
  {
    if k > 0 {
      RunInv(tr, ms, name, k - 1);
      assert CanMove(tr[k - 1], ms[k - 1]) && tr[k] == Do(tr[k - 1], ms[k - 1]);
      InvKept(tr[k - 1], ms[k - 1]);
    }
  }

  // A deferred update leaves its worker draining if and only if the process that the drain signal
  // reached still runs and is not the one the journal recorded.
  lemma StrayIff(tr: seq<World>, ms: seq<Move>, name: string, k: nat)
    requires Run(tr, ms) && tr[0] == Fresh(name) && k < |ms| && Completes(tr[k], ms[k])
    ensures tr[k].memory.Some?
    ensures var worker := tr[k + 1].worker;
            worker.draining <==>
              worker.running && tr[k].asked == Some(worker.started) && worker.started != tr[k].memory.value.started
  {
    RunInv(tr, ms, name, k);
    assert CanMove(tr[k], ms[k]) && tr[k + 1] == Do(tr[k], ms[k]);
    InvKept(tr[k], ms[k]);
  }

  // What the class promises of a recovery that returns normally is what happens here. Where recover
  // makes a call, the worker may have drifted since its inspection; where it makes none, the end of
  // the recovery is the inspection.
  lemma AsRecover(w: World, mv: Move)
    requires Inv(w) && CanMove(w, mv) && Completes(w, mv) && w.memory.value.backup == 0
    requires w.worker.name == w.memory.value.name && SameProcess(w.stage.seen, w.worker)
    requires ResumeFor(w.stage.seen, w.memory.value).LeaveAlone? ==> w.worker == w.stage.seen
    ensures DrainSettled(map[0 := w.stage.seen], map[0 := Do(w, mv).worker], w.memory.value, Some(w.stage.seen), Done,
                         Do(w, mv).worker == w.stage.seen)
  {
  }

  // It does happen: the worker restarts between the inspection and the signal, does not drain in
  // time, and recover, returning normally, leaves it draining with nothing in the journal.
  lemma StrayReached(name: string) returns (tr: seq<World>, ms: seq<Move>)
    ensures Run(tr, ms) && tr[0] == Fresh(name) && forall k :: 0 <= k < |ms| ==> !ms[k].Crash?
    ensures |ms| > 0 && Completes(tr[|ms| - 1], ms[|ms| - 1])
    ensures var w := tr[|ms|];
            w.worker.draining && !w.worker.healthy && w.stage.Resting? && w.memory.None? && w.disk.None?
  {
    var w0 := Fresh(name);
    var w1 := Do(w0, Inspect);
    var w2 := Do(w1, Enter("next", true, true));
    var w3 := Do(w2, Restart);
    var w4 := Do(w3, Ask(true, true));
    var w5 := Do(w4, GiveUp);
    var w6 := Do(w5, Examine);
    var w7 := Do(w6, Resume(false, true, true));
    tr := [w0, w1, w2, w3, w4, w5, w6, w7];
    ms := [Inspect, Enter("next", true, true), Restart, Ask(true, true), GiveUp, Examine, Resume(false, true, true)];
  }

  // And it lasts: a draining worker reports itself unhealthy, so no later update reaches it, and
  // until somebody restarts or stops it nothing ends its drain.
  lemma {:induction false} StrayStays(tr: seq<World>, ms: seq<Move>, k: nat)
    requires Run(tr, ms) && k < |tr|
    requires tr[0].worker.draining && !tr[0].worker.healthy
    requires tr[0].stage.Resting? && tr[0].memory.None? && tr[0].disk.None?
    requires forall m :: 0 <= m < k ==> !ms[m].Restart? && !ms[m].Exit? && ms[m] != Probe(true)
    ensures tr[k].worker.draining && !tr[k].worker.healthy && tr[k].memory.None? && tr[k].disk.None?
    ensures tr[k].stage.Resting? || (tr[k].stage.Inspected? && !tr[k].stage.snapshot.healthy)
  {
    if k > 0 {
      StrayStays(tr, ms, k - 1);
      assert CanMove(tr[k - 1], ms[k - 1]) && tr[k] == Do(tr[k - 1], ms[k - 1]);
    }
  }

  // ----- an entry that outlives its recovery -----

  // The save that ends a recover may fail without effect; then, and only then, the entry stays on
  // disk although the pair is settled and memory has dropped it.
  lemma EntryRemainsIff(w: World, mv: Move)
    requires CanMove(w, mv) && Completes(w, mv) && w.disk.Some?
    ensures Do(w, mv).memory.None? && (Do(w, mv).disk.Some? <==> !mv.written)
  {
  }

  predicate Stale(w: World) {
    w.memory.None? && w.disk.Some? && (w.stage.Resting? || w.stage.Inspected?)
  }

  // Whatever happens to a stale entry: it stays until the next update's first save replaces it or
  // a new updater process reads it back and recovers from it.
  lemma StaleUntil(w: World, mv: Move)
    requires Stale(w) && CanMove(w, mv)
    ensures var t := Do(w, mv);
            if mv.Crash? then t.memory == t.disk == w.disk && t.stage.Recovering?
            else if mv.Enter? then
              t.memory.Some? && (if mv.written then t.disk == t.memory else t.disk == w.disk)
            else Stale(t) && t.disk == w.disk
  {
  }

  lemma StaleReached(name: string) returns (tr: seq<World>, ms: seq<Move>)
    ensures Run(tr, ms) && tr[0] == Fresh(name) && Stale(tr[|ms|])
  {
    var w0 := Fresh(name);
    var w1 := Do(w0, Inspect);
    var w2 := Do(w1, Enter("next", true, true));
    var w3 := Do(w2, Ask(true, true));
    var w4 := Do(w3, GiveUp);
    var w5 := Do(w4, Examine);
    var w6 := Do(w5, Resume(true, true, false));
    tr := [w0, w1, w2, w3, w4, w5, w6];
    ms := [Inspect, Enter("next", true, true), Ask(true, true), GiveUp, Examine, Resume(true, true, false)];
  }
}
