// The worker updater: replacing a container under a durable journal, and recovering from a
// failure or a crash between any two of its actions, including those of recovery itself.
module Updater {
  import opened Base
  import opened Containers

  datatype Pending = Pending(backup: nat, started: nat, name: string, service: string, image: string)

  datatype Journal = Journal(pending: Option<Pending>, failed: map<string, string>)

  // How a call ends: normally, by refusing to act, by an exception from Docker or the journal,
  // or with the process.
  datatype Result = Done | Refused | Raised | Killed

  function Exit(o: Outcome): Result {
    if o.Crashed? then Killed else Raised
  }

  predicate HoldsName(cs: Fleet, id: nat, name: string) {
    id in cs && cs[id].name == name && cs[id].managed
  }

  // A managed container serves under this name.
  predicate Served(cs: Fleet, name: string) {
    exists id :: id in cs && HoldsName(cs, id, name)
  }

  // The backup exists, or a managed container has its place.
  predicate PairSafe(cs: Fleet, p: Pending) {
    (p.backup in cs && cs[p.backup].managed) || Served(cs, p.name)
  }

  // Exactly one of the pair is left, under the service name: the old container, or instead of
  // it a managed one.
  predicate PairSettled(cs: Fleet, p: Pending) {
    if p.backup in cs then HoldsName(cs, p.backup, p.name) else Served(cs, p.name)
  }

  // A managed container that has been seen healthy stands in place of the old one.
  predicate Replaced(cs: Fleet, p: Pending, seenHealthy: set<nat>) {
    exists id :: id in cs && id != p.backup && HoldsName(cs, id, p.name) && id in seenHealthy
  }

  // The old container is there; if it is gone, it was removed behind such a replacement.
  predicate Accounted(cs: Fleet, p: Pending, seenHealthy: set<nat>) {
    (p.backup in cs && cs[p.backup].managed) || Replaced(cs, p, seenHealthy)
  }

  lemma KeptAccounted(before: Fleet, after: Fleet, firstFree: nat, p: Pending, seen: set<nat>, later: set<nat>)
    requires Kept(before, after, firstFree) && Accounted(before, p, seen) && seen <= later
    ensures Accounted(after, p, later)
  {
    if Replaced(before, p, seen) {
      var id :| id in before && id != p.backup && HoldsName(before, id, p.name) && id in seen;
      assert HoldsName(after, id, p.name);
    }
  }

  lemma KeptSafe(before: Fleet, after: Fleet, firstFree: nat, p: Pending)
    requires Kept(before, after, firstFree) && p.backup < firstFree
    ensures PairSafe(before, p) ==> PairSafe(after, p)
    ensures PairSettled(before, p) ==> PairSettled(after, p)
    ensures HoldsName(before, p.backup, p.name) ==> HoldsName(after, p.backup, p.name)
    ensures Served(before, p.name) ==> Served(after, p.name)
  {
    if Served(before, p.name) {
      var id :| id in before && HoldsName(before, id, p.name);
      assert HoldsName(after, id, p.name);
    }
  }

  predicate BackedUp(cs: Fleet, p: Pending) {
    p.backup in cs && cs[p.backup].managed
  }

  // What recover does with an old container that still has its name: start it, tell the
  // recorded process to stop draining, or leave a process that has been restarted since.
  datatype Resume = StartAgain | CancelDrain | LeaveAlone

  function ResumeFor(c: Container, p: Pending): Resume {
    if !c.running then StartAgain
    else if c.started == p.started then CancelDrain
    else LeaveAlone
  }

  // What one call may do to containers: nothing to any that is neither the old one nor holds the
  // service name, nothing to any that is not managed, and to the old one's name only these two. New
  // containers have new identities.
  predicate Touches(before: Fleet, after: Fleet, firstFree: nat, p: Pending, aside: string) {
    && (forall id :: id in before && id != p.backup && before[id].name != p.name ==>
         id in after && after[id].name == before[id].name && after[id].managed == before[id].managed)
    && (forall id :: id in before && !before[id].managed ==>
         id in after && after[id].name == before[id].name && !after[id].managed)
    && (p.backup in after && p.backup in before ==>
         after[p.backup].name == before[p.backup].name || after[p.backup].name == p.name
         || after[p.backup].name == aside)
    && (forall id :: id in after && id !in before ==> firstFree <= id)
  }

  lemma KeptTouches(before: Fleet, after: Fleet, firstFree: nat, p: Pending, aside: string)
    requires Kept(before, after, firstFree)
    ensures Touches(before, after, firstFree, p, aside)
  {
  }

  // A call on the old container or on the holder of the service name.
  lemma ActTouches(before: Fleet, after: Fleet, id: nat, firstFree: nat, p: Pending, aside: string)
    requires Kept(before - {id}, after - {id}, firstFree) && id in before && before[id].managed
    requires id == p.backup || before[id].name == p.name
    requires id in after ==>
               after[id].name == before[id].name
               || (id == p.backup && (after[id].name == aside || after[id].name == p.name))
    ensures Touches(before, after, firstFree, p, aside)
  {
    forall x | x in before && x != id
      ensures x in after && after[x].name == before[x].name && after[x].managed == before[x].managed
    {
      assert x in before - {id};
    }
    forall x | x in after && x !in before
      ensures firstFree <= x
    {
      assert x in after - {id};
    }
  }

  lemma TouchesTransitive(a: Fleet, b: Fleet, c: Fleet, firstFree: nat, later: nat, p: Pending, aside: string)
    requires Touches(a, b, firstFree, p, aside) && Touches(b, c, later, p, aside)
    requires firstFree <= later && p.backup < firstFree
    ensures Touches(a, c, firstFree, p, aside)
  {
  }

  lemma TouchesByName(a: Fleet, b: Fleet, firstFree: nat, p: Pending, aside: string)
    requires Touches(a, b, firstFree, p, p.name)
    ensures Touches(a, b, firstFree, p, aside)
  {
  }

  // Neither is the old container still in its place nor does a healthy one stand there.
  predicate RollsBack(p: Pending, replacement: Option<nat>, seen: Container) {
    replacement != Some(p.backup) && !(replacement.Some? && seen.managed && seen.healthy)
  }

  // One of the two containers recover may act on is not managed.
  predicate Foreign(cs: Fleet, p: Pending) {
    (p.backup in cs && !cs[p.backup].managed)
    || exists id :: id in cs && cs[id].name == p.name && !cs[id].managed
  }

  // The old container exists under another name.
  predicate MovedAside(cs: Fleet, p: Pending) {
    p.backup in cs && cs[p.backup].name != p.name
  }

  // What a recovery that ended with r has done about the drain of the old container. kept is that
  // container as it was found under its name, quiet says that no call was made that changes one.
  predicate DrainSettled(before: Fleet, after: Fleet, p: Pending, kept: Option<Container>, r: Result, quiet: bool) {
    && (kept.Some? ==>
         p.backup in before && SameProcess(before[p.backup], kept.value)
         && (kept.value.draining ==> kept.value.running))
    && (r.Done? && p.backup in before && before[p.backup].name == p.name ==> kept.Some?)
    && (r.Done? && p.backup in after ==>
         (after[p.backup].draining <==> kept.Some? && kept.value.draining && kept.value.started != p.started))
    && (kept.Some? && kept.value.managed && ResumeFor(kept.value, p).LeaveAlone? ==>
         quiet && p.backup in after && after[p.backup] == kept.value)
  }

  // The old container as found, and the holder of the service name as seen.
  predicate Known(cs: Fleet, firstFree: nat, healthy: set<nat>, p: Pending, found: Option<Container>,
                  replacement: Option<nat>, seen: Container) {
    && (found.Some? <==> p.backup in cs)
    && (found.Some? ==> found.value.managed == cs[p.backup].managed)
    && (replacement.Some? ==>
         && replacement.value in cs && replacement.value < firstFree
         && cs[replacement.value] == seen && seen.name == p.name && (seen.healthy ==> replacement.value in healthy))
    && (replacement.None? ==> !Taken(cs, p.name))
  }

  // ----- what the answers led to -----

  // What recover made of the holder of the service name it saw last. The old container in its place
  // stays there, running, and no longer drains unless its process is not the recorded one. A managed
  // healthy container in its place stays, and the old one goes. Otherwise whatever was there goes,
  // the old container serves again, and the image is quarantined.
  predicate Judged(after: Fleet, p: Pending, holder: Option<(nat, Container)>,
                   failed: map<string, string>, failed': map<string, string>) {
    match holder
    case Some((id, c)) =>
      if id == p.backup then
        && HoldsName(after, id, p.name) && failed' == failed
        && (after[id].draining <==> c.draining && c.started != p.started)
        && (!c.running ==> after[id].running)
      else if c.managed && c.healthy then
        HoldsName(after, id, p.name) && p.backup !in after && failed' == failed
      else BackAgain(after, p) && id !in after && failed' == failed[p.service := p.image]
    case None => BackAgain(after, p) && failed' == failed[p.service := p.image]
  }

  predicate RunsAs(cs: Fleet, id: nat, name: string) {
    id in cs && cs[id].name == name && cs[id].running
  }

  // The old container serves under its name.
  predicate BackAgain(cs: Fleet, p: Pending) {
    HoldsName(cs, p.backup, p.name) && cs[p.backup].running && !cs[p.backup].draining
  }

  // Who holds the name is known from the containers before the call: nobody else takes it away.
  predicate HolderSeen(before: Fleet, p: Pending, holder: Option<(nat, Container)>) {
    forall id :: id in before && before[id].name == p.name ==> holder.Some? && holder.value.0 == id
  }

  predicate Told(log: seq<Answer>, at: nat, p: Pending) {
    at < |log| && log[at] == Signalled(p.backup, true)
  }

  // The answers log[from..to] are those of waiting for the marker: one at least, at most polls more,
  // none but the last positive, and all of them used if that is negative too.
  predicate Polled(log: seq<Answer>, from: nat, to: nat, id: nat, polls: nat, drained: bool) {
    && from < to <= |log| && to - from <= polls + 1
    && (forall i :: from <= i < to ==> log[i] == Marker(id, drained && i == to - 1))
    && (!drained ==> to - from == polls + 1)
  }

  // The end of an exchange: the wait was for this container, which then held the service name, and it
  // stays or goes by what recover saw of it.
  predicate Finished(after: Fleet, log: seq<Answer>, from: nat, p: Pending, created: nat, checks: nat,
                     failed: map<string, string>, failed': map<string, string>) {
    && from + 2 <= |log| && log[|log| - 1].ByName? && log[|log| - 1].name == p.name
    && var holder := log[|log| - 1].holder;
    && holder.Some? && holder.value.0 == created && Judged(after, p, holder, failed, failed')
    && Waited(log, from, |log| - 2, created, checks)
  }

  lemma FinishedBy(before: Fleet, after: Fleet, waited: seq<Answer>, log: seq<Answer>, from: nat, p: Pending,
                   created: nat, checks: nat, failed: map<string, string>, failed': map<string, string>)
    requires Waited(waited, from, |waited|, created, checks) && waited <= log
    requires Decided(before, after, log, |waited|, p, failed, failed')
    requires created in before && before[created].name == p.name && created != p.backup
    ensures Finished(after, log, from, p, created, checks, failed, failed')
  {
    var mid := |waited|;
    assert log[mid + 1].holder.Some? && log[mid + 1].holder.value.0 == created;
    assert log[mid + 2..] == [];
    assert |log| == mid + 2;
  }

  // The old container was stopped first, and the other one was new.
  predicate Exchanged(before: Fleet, after: Fleet, log: seq<Answer>, from: nat, p: Pending, checks: nat,
                      failed: map<string, string>, failed': map<string, string>) {
    && from + 1 < |log| && log[from] == Halted(p.backup)
    && log[|log| - 1].ByName? && log[|log| - 1].holder.Some?
    && var created := log[|log| - 1].holder.value.0;
    && created !in before && Finished(after, log, from + 1, p, created, checks, failed, failed')
  }

  // A whole update: the drain signal, the marker, and then either the exchange, or, without the marker, a recovery
  // that found the old container in its place.
  predicate Story(before: Fleet, after: Fleet, log: seq<Answer>, from: nat, mid: nat, p: Pending, polls: nat,
                  checks: nat, drained: bool, failed: map<string, string>, failed': map<string, string>) {
    && Told(log, from, p) && Polled(log, from + 1, mid, p.backup, polls, drained)
    && if drained then Exchanged(before, after, log, mid, p, checks, failed, failed')
       else Recovered(log, mid, p) && log[mid + 1].holder.Some? && log[mid + 1].holder.value.0 == p.backup
            && Judged(after, p, log[mid + 1].holder, failed, failed')
  }

  lemma StoryFrom(earlier: Fleet, before: Fleet, after: Fleet, log: seq<Answer>, from: nat, mid: nat, p: Pending,
                  polls: nat, checks: nat, drained: bool, failed: map<string, string>, failed': map<string, string>)
    requires Story(before, after, log, from, mid, p, polls, checks, drained, failed, failed')
    requires earlier.Keys <= before.Keys
    ensures Story(earlier, after, log, from, mid, p, polls, checks, drained, failed, failed')
  {
  }

  predicate LeftAlone(j: Journal, snapshot: Container, role: string, image: string, current: bool, drainable: bool) {
    current || !drainable || !snapshot.healthy || (role in j.failed && j.failed[role] == image)
  }

  // A container that is still on its way.
  predicate Starting(a: Answer, id: nat) {
    a.ById? && a.id == id && a.found.Some? && a.found.value.running && !a.found.value.healthy
  }

  // The answers log[from..to] are those of waiting for health: only the last may show the container
  // healthy, stopped or gone, and without that all the checks were made.
  predicate Waited(log: seq<Answer>, from: nat, to: nat, id: nat, checks: nat) {
    && from <= to <= |log| && to - from <= checks
    && (forall i :: from <= i < to - 1 ==> Starting(log[i], id))
    && (to - from < checks ==> from < to && log[to - 1].ById? && log[to - 1].id == id && !Starting(log[to - 1], id))
  }

  // The answers from there on are those of recover: what it found, and that the drain was cancelled
  // where it had to be.
  predicate Recovered(log: seq<Answer>, from: nat, p: Pending) {
    && from + 2 <= |log| && log[from].ById? && log[from].id == p.backup
    && log[from + 1].ByName? && log[from + 1].name == p.name
    && log[from + 2..] == Cancelling(p, log[from + 1].holder)
  }

  predicate Asked(log: seq<Answer>, from: nat, p: Pending) {
    && |log| == from + 2 && log[from].ById? && log[from].id == p.backup
    && log[from + 1].ByName? && log[from + 1].name == p.name
  }

  function Cancelling(p: Pending, holder: Option<(nat, Container)>): seq<Answer> {
    if holder.Some? && holder.value.0 == p.backup && ResumeFor(holder.value.1, p).CancelDrain?
    then [Signalled(p.backup, false)] else []
  }

  predicate Decided(before: Fleet, after: Fleet, log: seq<Answer>, from: nat, p: Pending,
                    failed: map<string, string>, failed': map<string, string>) {
    && Recovered(log, from, p)
    && HolderSeen(before, p, log[from + 1].holder) && Judged(after, p, log[from + 1].holder, failed, failed')
  }

  lemma DriftTwice(a: Fleet, b: Fleet, c: Fleet, firstFree: nat, later: nat)
    requires Drifted(a, b, firstFree) && Drifted(b, c, later) && firstFree <= later
    ensures Drifted(a, c, firstFree)
  {
  }

  // Looking first and acting afterwards.
  lemma LookThenAct(a: Fleet, b: Fleet, c: Fleet, firstFree: nat, later: nat, p: Pending, seen: Option<Container>,
                    r: Result, quiet: bool)
    requires Drifted(a, b, firstFree) && p.backup < firstFree <= later
    requires Touches(b, c, later, p, p.name)
    requires PairSettled(b, p) ==> PairSettled(c, p) && Kept(b, c, later)
    requires seen.Some? ==> p.backup in b && b[p.backup] == seen.value && (seen.value.draining ==> seen.value.running)
    requires DrainSettled(b, c, p, seen, r, quiet)
    ensures Touches(a, c, firstFree, p, p.name)
    ensures PairSettled(a, p) ==> PairSettled(c, p) && Kept(a, c, firstFree)
    ensures DrainSettled(a, c, p, seen, r, quiet)
  {
    KeptTouches(a, b, firstFree, p, p.name);
    TouchesTransitive(a, b, c, firstFree, later, p, p.name);
    KeptSafe(a, b, firstFree, p);
  }

  class Updater {
    const docker: Docker
    var state: Journal
    var disk: Journal

    // Memory and disk may disagree only while nothing is at stake: the pair in memory is still
    // untouched, and the one on disk already settled.
    ghost predicate Valid()
      reads this, docker
    {
      && docker.Valid()
      && (state.pending.Some? ==>
           state.pending.value.backup < docker.firstFree && PairSafe(docker.containers, state.pending.value))
      && (disk.pending.Some? ==>
           disk.pending.value.backup < docker.firstFree && PairSafe(docker.containers, disk.pending.value))
      && (state.pending != disk.pending ==>
           && (state.pending.Some? ==>
                HoldsName(docker.containers, state.pending.value.backup, state.pending.value.name))
           && (disk.pending.Some? ==> PairSettled(docker.containers, disk.pending.value)))
    }

    // A new process starts from the journal on disk.
    constructor (docker: Docker, disk: Journal)
      requires docker.Valid()
      requires disk.pending.Some? ==>
                 disk.pending.value.backup < docker.firstFree && PairSafe(docker.containers, disk.pending.value)
      ensures Valid() && this.docker == docker && this.disk == disk && state == disk
    {
      this.docker, this.disk, this.state := docker, disk, disk;
    }

    // Whatever keeps the containers and both journals keeps the invariant.
    twostate lemma ValidKept()
      requires old(Valid()) && docker.Valid() && state.pending == old(state.pending) && disk == old(disk)
      requires Kept(old(docker.containers), docker.containers, old(docker.firstFree))
      requires old(docker.firstFree) <= docker.firstFree
      ensures Valid()
    {
      if state.pending.Some? {
        KeptSafe(old(docker.containers), docker.containers, old(docker.firstFree), state.pending.value);
      }
      if disk.pending.Some? {
        KeptSafe(old(docker.containers), docker.containers, old(docker.firstFree), disk.pending.value);
      }
    }

    // atomic_json: written aside, synced and renamed, so the file is the old or the new one.
    // written says which.
    method Save() returns (o: Outcome, ghost written: bool)
      modifies this`disk
      ensures disk == if written then state else old(disk)
      ensures o.Ok? ==> written
    {
      o := *;
      var effect: bool := *;
      written := effect || o.Ok?;
      if effect || o.Ok? {
        disk := state;
      }
    }

    // The end of recover: the pair is settled, drop it from memory and then from disk.
    // The entry on disk goes exactly when this save takes effect.
    method Forget(ghost p: Pending) returns (r: Result, ghost written: bool)
      requires Valid() && state.pending == Some(p) && PairSettled(docker.containers, p)
      modifies this
      ensures Valid() && state == old(state).(pending := None)
      ensures disk == if written then state else old(disk)
      ensures r.Done? ==> written
      ensures r.Done? || r.Raised? || r.Killed?
    {
      state := state.(pending := None);
      var o;
      o, written := Save();
      r := if o.Ok? then Done else Exit(o);
    }

    // Crash before the rename: the old container keeps its name and its drain is cancelled, unless
    // it has been restarted since. A restarted process is left alone, draining or not.
    method KeepOld(p: Pending, seen: Container) returns (o: Outcome)
      requires Valid() && state.pending == Some(p) && HoldsName(docker.containers, p.backup, p.name)
      requires seen == docker.containers[p.backup]
      modifies docker`containers, docker`firstFree, docker`acts, docker`log
      ensures Valid() && HoldsName(docker.containers, p.backup, p.name)
      ensures docker.firstFree >= old(docker.firstFree)
      ensures Kept(old(docker.containers), docker.containers, old(docker.firstFree))
      ensures o.Ok? && ResumeFor(seen, p).StartAgain? ==> docker.containers[p.backup].running
      ensures ResumeFor(seen, p).LeaveAlone? ==>
                o.Ok? && docker.containers == old(docker.containers) && docker.acts == old(docker.acts)
      ensures docker.log ==
              old(docker.log) + if o.Ok? && ResumeFor(seen, p).CancelDrain? then [Signalled(p.backup, false)] else []
      ensures o.Ok? ==> (docker.containers[p.backup].draining <==> seen.draining && seen.started != p.started)
    {
      o := Ok;
      match ResumeFor(seen, p) {
        case StartAgain =>
          o := docker.StartUp(p.backup);
          ValidKept();
        case CancelDrain =>
          o := docker.Kill(p.backup, false);
          ValidKept();
        case LeaveAlone =>
      }
    }

    // The replacement is managed and healthy: remove the backup.
    method Commit(p: Pending, found: Option<Container>, replacement: nat) returns (o: Outcome)
      requires Valid() && state.pending == Some(p) && state.pending == disk.pending
      requires replacement != p.backup && HoldsName(docker.containers, replacement, p.name)
      requires replacement in docker.seenHealthy && replacement < docker.firstFree
      requires found.Some? <==> p.backup in docker.containers
      requires found.Some? ==> docker.containers[p.backup].managed
      modifies docker`containers, docker`firstFree, docker`acts
      ensures Valid() && Replaced(docker.containers, p, docker.seenHealthy)
      ensures HoldsName(docker.containers, replacement, p.name)
      ensures docker.firstFree >= old(docker.firstFree)
      ensures Touches(old(docker.containers), docker.containers, old(docker.firstFree), p, p.name)
      ensures found.None? ==> o.Ok? && docker.containers == old(docker.containers)
      ensures o.Ok? ==> p.backup !in docker.containers
    {
      o := Ok;
      if found.Some? {
        o := docker.Remove(p.backup);
        assert replacement in old(docker.containers) - {p.backup};
        ActTouches(old(docker.containers), docker.containers, p.backup, old(docker.firstFree), p, p.name);
      }
      assert HoldsName(docker.containers, replacement, p.name);
    }

    // No healthy replacement: put the backup back under its name.
    method RollBack(p: Pending, replacement: Option<nat>) returns (o: Outcome)
      requires Valid() && state.pending == Some(p) && state.pending == disk.pending
      requires p.backup in docker.containers && docker.containers[p.backup].managed
      requires replacement.Some? ==>
                 replacement.value != p.backup && replacement.value in docker.containers
                 && docker.containers[replacement.value].name == p.name
                 && docker.containers[replacement.value].managed
      modifies docker`containers, docker`firstFree, docker`acts
      ensures Valid() && p.backup in docker.containers && docker.containers[p.backup].managed
      ensures docker.firstFree >= old(docker.firstFree)
      ensures Touches(old(docker.containers), docker.containers, old(docker.firstFree), p, p.name)
      ensures o.Ok? ==> BackAgain(docker.containers, p)
                        && (replacement.Some? ==> replacement.value !in docker.containers)
    {
      o := Ok;
      KeptTouches(docker.containers, docker.containers, docker.firstFree, p, p.name);
      if replacement.Some? {
        o := docker.Remove(replacement.value);
        assert p.backup in old(docker.containers) - {replacement.value};
        ActTouches(old(docker.containers), docker.containers, replacement.value, old(docker.firstFree), p, p.name);
        if !o.Ok? {
          return;
        }
      }
      label cleared:
      o := PutBack(p);
      TouchesTransitive(old(docker.containers), old@cleared(docker.containers), docker.containers,
                        old(docker.firstFree), old@cleared(docker.firstFree), p, p.name);
    }

    // The backup gets its name back and runs again.
    method PutBack(p: Pending) returns (o: Outcome)
      requires Valid() && state.pending == Some(p) && state.pending == disk.pending
      requires p.backup in docker.containers && docker.containers[p.backup].managed
      modifies docker`containers, docker`firstFree, docker`acts
      ensures Valid() && p.backup in docker.containers && docker.containers[p.backup].managed
      ensures docker.firstFree >= old(docker.firstFree)
      ensures Touches(old(docker.containers), docker.containers, old(docker.firstFree), p, p.name)
      ensures o.Ok? ==> BackAgain(docker.containers, p)
    {
      o := docker.Rename(p.backup, p.name);
      ActTouches(old(docker.containers), docker.containers, p.backup, old(docker.firstFree), p, p.name);
      if !o.Ok? {
        return;
      }
      label renamed:
      o := docker.StartUp(p.backup);
      KeptTouches(old@renamed(docker.containers), docker.containers, old@renamed(docker.firstFree), p, p.name);
      TouchesTransitive(old(docker.containers), old@renamed(docker.containers), docker.containers,
                        old(docker.firstFree), old@renamed(docker.firstFree), p, p.name);
    }

    // recover. Any outcome may also be the last thing this process does; so what is ensured of
    // every outcome is what a crash between any two actions leaves behind.
    // kept is the old container if it was found under its name, written whether the journal's last
    // save took effect.
    method Recover() returns (r: Result, ghost kept: Option<Container>, ghost written: bool)
      requires Valid()
      modifies this, docker
      ensures Valid() && docker.firstFree >= old(docker.firstFree)
      // Nothing pending, nothing done.
      ensures old(state.pending).None? ==>
                r.Done? && kept.None? && !written
                && state == old(state) && disk == old(disk) && docker.acts == old(docker.acts)
                && docker.containers == old(docker.containers) && docker.seenHealthy == old(docker.seenHealthy)
      // The pair survives every action and every crash; other containers are none of its business.
      ensures old(state.pending).Some? ==>
                var p := old(state.pending.value);
                PairSafe(docker.containers, p)
                && Touches(old(docker.containers), docker.containers, old(docker.firstFree), p, p.name)
      // The old container is removed only behind a managed replacement seen healthy.
      ensures old(state.pending).Some?
              && old(Accounted(docker.containers, state.pending.value, docker.seenHealthy)) ==>
                Accounted(docker.containers, old(state.pending.value), docker.seenHealthy)
      // A refusal comes before anything was touched.
      ensures r.Refused? ==>
                docker.acts == old(docker.acts) && state == old(state) && disk == old(disk)
      // An unmanaged container in the way of either is never acted on.
      ensures old(state.pending).Some? && old(Foreign(docker.containers, state.pending.value)) ==>
                !r.Done? && docker.acts == old(docker.acts)
      // A normal return leaves no journal entry and one of the pair under the service name.
      ensures r.Done? && old(state.pending).Some? ==>
                state.pending.None? && disk == state
                && PairSettled(docker.containers, old(state.pending.value))
      // It leaves the old worker draining exactly when the drain was found on a process other than
      // the recorded one; then nothing was done about it.
      ensures old(state.pending).Some? ==>
                DrainSettled(old(docker.containers), docker.containers, old(state.pending.value), kept, r,
                             docker.acts == old(docker.acts))
      // A settled pair stays settled, and nothing is removed or renamed.
      ensures old(state.pending).Some? && old(PairSettled(docker.containers, state.pending.value)) ==>
                PairSettled(docker.containers, old(state.pending.value))
                && Kept(old(docker.containers), docker.containers, old(docker.firstFree))
      // A finished rollback puts the image in quarantine, in memory and on disk.
      ensures r.Done? && old(state.pending).Some? && old(MovedAside(docker.containers, state.pending.value))
              && old(state.pending.value).backup in docker.containers ==>
                var p := old(state.pending.value);
                state.failed == old(state.failed)[p.service := p.image]
      // What a finished recovery does depends on the answers it got, and on nothing else.
      ensures old(docker.log) <= docker.log
      ensures r.Done? && old(state.pending).Some? ==>
                var p := old(state.pending.value);
                Decided(old(docker.containers), docker.containers, docker.log, |old(docker.log)|, p,
                        old(state).failed, state.failed)
      // The journal is given up only when the pair is settled.
      ensures state.pending == old(state.pending)
              || (old(state.pending).Some? && state.pending.None?
                  && PairSettled(docker.containers, old(state.pending.value)))
      // The entry on disk goes exactly when the last save takes effect: once the pair is dropped from
      // memory, a save without effect leaves the entry where it was.
      ensures disk == if written then state else old(disk)
      ensures written ==> old(state.pending).Some? && state.pending.None?
    {
      if state.pending.None? {
        r, kept, written := Done, None, false;
      } else {
        r, kept, written := RecoverEntry(state.pending.value);
      }
    }

    // recover with an entry.
    method RecoverEntry(p: Pending) returns (r: Result, ghost kept: Option<Container>, ghost written: bool)
      requires Valid() && state.pending == Some(p)
      modifies this, docker
      ensures Valid() && docker.firstFree >= old(docker.firstFree)
      ensures PairSafe(docker.containers, p)
      ensures Touches(old(docker.containers), docker.containers, old(docker.firstFree), p, p.name)
      ensures old(Accounted(docker.containers, p, docker.seenHealthy)) ==>
                Accounted(docker.containers, p, docker.seenHealthy)
      ensures r.Refused? ==>
                docker.acts == old(docker.acts) && state == old(state) && disk == old(disk)
      ensures old(Foreign(docker.containers, p)) ==> !r.Done? && docker.acts == old(docker.acts)
      ensures r.Done? ==> state.pending.None? && disk == state && PairSettled(docker.containers, p)
      ensures DrainSettled(old(docker.containers), docker.containers, p, kept, r, docker.acts == old(docker.acts))
      ensures old(PairSettled(docker.containers, p)) ==>
                PairSettled(docker.containers, p)
                && Kept(old(docker.containers), docker.containers, old(docker.firstFree))
      ensures r.Done? && old(MovedAside(docker.containers, p)) && p.backup in docker.containers ==>
                state.failed == old(state.failed)[p.service := p.image]
      ensures old(docker.log) <= docker.log
      ensures r.Done? ==>
                Decided(old(docker.containers), docker.containers, docker.log, |old(docker.log)|, p,
                        old(state).failed, state.failed)
      ensures state.pending == Some(p) || (state.pending.None? && PairSettled(docker.containers, p))
      ensures disk == if written then state else old(disk)
      ensures written ==> state.pending.None?
    {
      kept, written := None, false;
      var o, found, replacement, seen := Examine(p);
      if !o.Ok? {
        r := Exit(o);
        return;
      }
      kept := if replacement == Some(p.backup) then Some(seen) else None;
      label examined:
      r, written := Conclude(p, found, replacement, seen);
      LookThenAct(old(docker.containers), old@examined(docker.containers), docker.containers,
                  old(docker.firstFree), old@examined(docker.firstFree), p, kept, r,
                  docker.acts == old@examined(docker.acts));
    }

    // What follows the inspections.
    method Conclude(p: Pending, found: Option<Container>, replacement: Option<nat>, seen: Container)
      returns (r: Result, ghost written: bool)
      requires Valid() && state.pending == Some(p)
      requires Known(docker.containers, docker.firstFree, docker.seenHealthy, p, found, replacement, seen)
      modifies this, docker`containers, docker`firstFree, docker`acts, docker`log
      ensures Valid() && docker.firstFree >= old(docker.firstFree)
      ensures PairSafe(docker.containers, p)
      ensures Touches(old(docker.containers), docker.containers, old(docker.firstFree), p, p.name)
      ensures old(Accounted(docker.containers, p, docker.seenHealthy)) ==>
                Accounted(docker.containers, p, docker.seenHealthy)
      ensures r.Refused? ==>
                docker.acts == old(docker.acts) && state == old(state) && disk == old(disk)
      ensures old(Foreign(docker.containers, p)) ==> !r.Done? && docker.acts == old(docker.acts)
      ensures r.Done? ==> state.pending.None? && disk == state && PairSettled(docker.containers, p)
      ensures DrainSettled(old(docker.containers), docker.containers, p,
                           if replacement == Some(p.backup) then Some(seen) else None, r,
                           docker.acts == old(docker.acts))
      ensures old(PairSettled(docker.containers, p)) ==>
                PairSettled(docker.containers, p)
                && Kept(old(docker.containers), docker.containers, old(docker.firstFree))
      ensures r.Done? && old(MovedAside(docker.containers, p)) && p.backup in docker.containers ==>
                state.failed == old(state.failed)[p.service := p.image]
      ensures old(docker.log) <= docker.log
      ensures r.Done? ==> docker.log == old(docker.log) + Cancelling(p, Held(replacement, seen))
      ensures r.Done? ==>
                Judged(docker.containers, p, Held(replacement, seen), old(state).failed, state.failed)
      ensures state.pending == Some(p) || (state.pending.None? && PairSettled(docker.containers, p))
      ensures disk == if written then state else old(disk)
      ensures written ==> state.pending.None?
    {
      written := false;
      r := Settle(p, found, replacement, seen);
      if r.Done? {
        r, written := Forget(p);
      }
    }

    // The two inspections recover starts with.
    method Ask(p: Pending)
      returns (o: Outcome, found: Option<Container>, replacement: Option<nat>, seen: Container)
      requires docker.Valid() && p.backup < docker.firstFree
      modifies docker`containers, docker`firstFree, docker`seenHealthy, docker`log
      ensures docker.Valid() && docker.firstFree >= old(docker.firstFree)
      ensures old(docker.seenHealthy) <= docker.seenHealthy && old(docker.log) <= docker.log
      ensures Drifted(old(docker.containers), docker.containers, old(docker.firstFree))
      ensures o.Ok? ==>
                Asked(docker.log, |old(docker.log)|, p)
                && docker.log[|old(docker.log)| + 1].holder == Held(replacement, seen)
      ensures o.Ok? ==> Known(docker.containers, docker.firstFree, docker.seenHealthy, p, found, replacement, seen)
    {
      o, found := docker.Inspect(p.backup);
      replacement, seen := None, Container("", false, false, 0, false, false);
      if o.Ok? {
        label inspected:
        o, replacement, seen := docker.Lookup(p.name);
        DriftTwice(old(docker.containers), old@inspected(docker.containers), docker.containers,
                   old(docker.firstFree), old@inspected(docker.firstFree));
      }
    }

    // The same, with what time cannot change in between.
    method Examine(p: Pending)
      returns (o: Outcome, found: Option<Container>, replacement: Option<nat>, seen: Container)
      requires Valid() && state.pending == Some(p)
      modifies docker`containers, docker`firstFree, docker`seenHealthy, docker`log
      ensures Valid() && docker.firstFree >= old(docker.firstFree) && old(docker.log) <= docker.log
      ensures Drifted(old(docker.containers), docker.containers, old(docker.firstFree))
      ensures Touches(old(docker.containers), docker.containers, old(docker.firstFree), p, p.name)
      ensures PairSafe(docker.containers, p)
      ensures old(PairSettled(docker.containers, p)) ==> PairSettled(docker.containers, p)
      ensures old(Foreign(docker.containers, p)) ==> Foreign(docker.containers, p)
      ensures old(MovedAside(docker.containers, p)) ==> MovedAside(docker.containers, p)
      ensures old(Accounted(docker.containers, p, docker.seenHealthy)) ==>
                Accounted(docker.containers, p, docker.seenHealthy)
      ensures o.Ok? ==>
                Asked(docker.log, |old(docker.log)|, p)
                && docker.log[|old(docker.log)| + 1].holder == Held(replacement, seen)
                && HolderSeen(old(docker.containers), p, Held(replacement, seen))
      ensures o.Ok? ==> Known(docker.containers, docker.firstFree, docker.seenHealthy, p, found, replacement, seen)
    {
      o, found, replacement, seen := Ask(p);
      ValidKept();
      KeptTouches(old(docker.containers), docker.containers, old(docker.firstFree), p, p.name);
      KeptSafe(old(docker.containers), docker.containers, old(docker.firstFree), p);
      if old(Accounted(docker.containers, p, docker.seenHealthy)) {
        KeptAccounted(old(docker.containers), docker.containers, old(docker.firstFree), p,
                      old(docker.seenHealthy), docker.seenHealthy);
      }
    }

    // The three branches of recover.
    method Settle(p: Pending, found: Option<Container>, replacement: Option<nat>, seen: Container)
      returns (r: Result)
      requires Valid() && state.pending == Some(p)
      requires Known(docker.containers, docker.firstFree, docker.seenHealthy, p, found, replacement, seen)
      modifies this`state, docker`containers, docker`firstFree, docker`acts, docker`log
      ensures Valid() && state.pending == old(state.pending) && docker.firstFree >= old(docker.firstFree)
      ensures old(Accounted(docker.containers, p, docker.seenHealthy)) ==>
                Accounted(docker.containers, p, docker.seenHealthy)
      ensures r.Refused? ==> docker.acts == old(docker.acts) && state == old(state)
      // It refuses exactly when one of the two is not managed, or when the old container is gone and
      // no healthy replacement stands in its place.
      ensures r.Refused? <==>
                old(Foreign(docker.containers, p))
                || (found.None? && !(replacement.Some? && seen.managed && seen.healthy))
      ensures Touches(old(docker.containers), docker.containers, old(docker.firstFree), p, p.name)
      ensures r.Done? ==> PairSettled(docker.containers, p)
      ensures old(PairSettled(docker.containers, p)) ==>
                PairSettled(docker.containers, p)
                && Kept(old(docker.containers), docker.containers, old(docker.firstFree))
      ensures DrainSettled(old(docker.containers), docker.containers, p,
                           if replacement == Some(p.backup) then Some(seen) else None, r,
                           docker.acts == old(docker.acts))
      ensures replacement == Some(p.backup) && seen.managed && ResumeFor(seen, p).LeaveAlone? ==>
                r.Done? && docker.containers == old(docker.containers) && docker.acts == old(docker.acts)
      ensures docker.log == old(docker.log) + if r.Done? then Cancelling(p, Held(replacement, seen)) else []
      ensures r.Done? ==>
                Judged(docker.containers, p, Held(replacement, seen), old(state).failed, state.failed)
      // A finished rollback quarantines the image; nothing else does.
      ensures r.Done? && RollsBack(p, replacement, seen) ==>
                p.backup in docker.containers && state.failed == old(state.failed)[p.service := p.image]
      ensures !(r.Done? && RollsBack(p, replacement, seen)) ==> state.failed == old(state.failed)
      ensures r.Done? && p.backup in docker.containers && old(MovedAside(docker.containers, p)) ==>
                RollsBack(p, replacement, seen)
    {
      var o;
      if replacement == Some(p.backup) {
        if !seen.managed {
          return Refused;
        }
        o := KeepOld(p, seen);
        KeptTouches(old(docker.containers), docker.containers, old(docker.firstFree), p, p.name);
      } else if replacement.Some? && seen.managed && seen.healthy {
        if found.Some? && !found.value.managed {
          return Refused;
        }
        InPlace(p);
        o := Commit(p, found, replacement.value);
      } else {
        if found.None? || !found.value.managed {
          return Refused;
        }
        if replacement.Some? && !seen.managed {
          return Refused;
        }
        InPlace(p);
        o := RollBack(p, replacement);
        if o.Ok? {
          state := state.(failed := state.failed[p.service := p.image]);
        }
      }
      r := if o.Ok? then Done else Exit(o);
    }

    // If memory and disk disagreed, the old container would still have its name.
    lemma InPlace(p: Pending)
      requires Valid() && state.pending == Some(p) && !HoldsName(docker.containers, p.backup, p.name)
      ensures state.pending == disk.pending
    {
    }

    // What holds of a pair while the updater works on it: it is in memory and on disk, or it is
    // settled and dropped from memory.
    ghost predicate Working(p: Pending)
      reads this, docker
    {
      && Valid() && p.backup < docker.firstFree
      && Accounted(docker.containers, p, docker.seenHealthy)
      && (if state.pending.None? then PairSettled(docker.containers, p)
          else state.pending == Some(p) && disk.pending == Some(p))
      && (disk.pending == Some(p) || disk.pending.None?)
    }

    twostate lemma WorkingKept(p: Pending)
      requires old(Working(p)) && docker.Valid() && state == old(state) && disk == old(disk)
      requires Kept(old(docker.containers), docker.containers, old(docker.firstFree))
      requires old(docker.firstFree) <= docker.firstFree && old(docker.seenHealthy) <= docker.seenHealthy
      ensures Working(p)
    {
      ValidKept();
      KeptSafe(old(docker.containers), docker.containers, old(docker.firstFree), p);
      KeptAccounted(old(docker.containers), docker.containers, old(docker.firstFree), p,
                    old(docker.seenHealthy), docker.seenHealthy);
    }

    // recover as update calls it.
    method RecoverPair(p: Pending) returns (r: Result)
      requires Working(p)
      modifies this, docker
      ensures Working(p)
      ensures docker.firstFree >= old(docker.firstFree)
      ensures r.Done? ==> state.pending.None?
      ensures r.Done? && old(state.pending).Some? ==> disk.pending.None?
      ensures old(docker.log) <= docker.log
      ensures r.Done? && old(state.pending).Some? ==>
                Decided(old(docker.containers), docker.containers, docker.log, |old(docker.log)|, p,
                        old(state).failed, state.failed)
      ensures Touches(old(docker.containers), docker.containers, old(docker.firstFree), p, p.name)
    {
      ghost var kept, written;
      r, kept, written := Recover();
    }

    // Asking the worker to drain and waiting for its marker, which is read once and then up to polls
    // times more, as the deadline and a stop request allow. No answer in time defers the update.
    method Drain(p: Pending, polls: nat) returns (r: Result, drained: bool)
      requires Working(p) && state.pending == Some(p) && BackedUp(docker.containers, p)
      modifies docker
      ensures Working(p) && state == old(state) && BackedUp(docker.containers, p)
      ensures Kept(old(docker.containers), docker.containers, old(docker.firstFree))
      ensures old(docker.firstFree) <= docker.firstFree
      ensures r.Done? || r.Raised? || r.Killed?
      ensures r.Done? && drained ==> p.backup in docker.seenDrained
      ensures old(docker.log) <= docker.log
      ensures r.Done? ==>
                Told(docker.log, |old(docker.log)|, p)
                && Polled(docker.log, |old(docker.log)| + 1, |docker.log|, p.backup, polls, drained)
    {
      drained := false;
      var o := docker.Kill(p.backup, true);
      WorkingKept(p);
      if !o.Ok? {
        return Exit(o), false;
      }
      var asked := 0;
      while !drained && asked <= polls
        invariant asked <= polls + 1
        invariant Working(p) && BackedUp(docker.containers, p)
        invariant Kept(old(docker.containers), docker.containers, old(docker.firstFree))
        invariant old(docker.firstFree) <= docker.firstFree
        invariant drained ==> p.backup in docker.seenDrained && asked > 0
        invariant |docker.log| == |old(docker.log)| + 1 + asked && old(docker.log) <= docker.log
        invariant Told(docker.log, |old(docker.log)|, p)
        invariant forall i :: |old(docker.log)| < i < |docker.log| ==>
          docker.log[i] == Marker(p.backup, drained && i == |docker.log| - 1)
        decreases polls + 1 - asked
      {
        label asked':
        o, drained := docker.Drained(p.backup);
        WorkingKept@asked'(p);
        if !o.Ok? {
          return Exit(o), false;
        }
        asked := asked + 1;
      }
      r := Done;
    }

    // Stop and rename the old container, create and start the new one under its name.
    method Swap(p: Pending, rollbackName: string) returns (r: Result, created: nat)
      requires p.backup in docker.seenDrained
      requires Working(p) && state.pending == Some(p) && BackedUp(docker.containers, p)
      modifies docker`containers, docker`firstFree, docker`acts, docker`log
      ensures Working(p) && state == old(state) && docker.firstFree >= old(docker.firstFree)
      ensures Touches(old(docker.containers), docker.containers, old(docker.firstFree), p, rollbackName)
      ensures r.Done? || r.Raised? || r.Killed?
      // The old container has stepped aside and a new one runs under its name.
      ensures old(docker.log) <= docker.log
      ensures r.Done? ==>
                docker.log == old(docker.log) + [Halted(p.backup)]
                && MovedAside(docker.containers, p) && docker.containers[p.backup].name == rollbackName
                && created !in old(docker.containers) && RunsAs(docker.containers, created, p.name)
    {
      created := 0;
      var o := docker.Halt(p.backup);
      WorkingKept(p);
      KeptTouches(old(docker.containers), docker.containers, old(docker.firstFree), p, rollbackName);
      if !o.Ok? {
        return Exit(o), created;
      }
      label stopped:
      o := docker.Rename(p.backup, rollbackName);
      ActTouches(old@stopped(docker.containers), docker.containers, p.backup, old@stopped(docker.firstFree), p,
                 rollbackName);
      TouchesTransitive(old(docker.containers), old@stopped(docker.containers), docker.containers,
                        old(docker.firstFree), old@stopped(docker.firstFree), p, rollbackName);
      if !o.Ok? {
        return Exit(o), created;
      }
      label renamed:
      r, created := CreateNew(p);
      KeptTouches(old@renamed(docker.containers), docker.containers, old@renamed(docker.firstFree), p, rollbackName);
      TouchesTransitive(old(docker.containers), old@renamed(docker.containers), docker.containers,
                        old(docker.firstFree), old@renamed(docker.firstFree), p, rollbackName);
    }

    // The new container, created under the service name and started.
    method CreateNew(p: Pending) returns (r: Result, created: nat)
      requires Working(p) && state.pending == Some(p)
      modifies docker`containers, docker`firstFree, docker`acts
      ensures Working(p) && state == old(state) && docker.firstFree >= old(docker.firstFree)
      ensures Kept(old(docker.containers), docker.containers, old(docker.firstFree))
      ensures r.Done? || r.Raised? || r.Killed?
      ensures r.Done? ==>
                created !in old(docker.containers) && RunsAs(docker.containers, created, p.name)
    {
      created := 0;
      var o := docker.Query();
      WorkingKept(p);
      if !o.Ok? {
        return Exit(o), created;
      }
      label described:
      o, created := docker.Create(p.name);
      WorkingKept@described(p);
      if !o.Ok? {
        return Exit(o), created;
      }
      label created':
      o := docker.StartUp(created);
      WorkingKept@created'(p);
      r := if o.Ok? then Done else Exit(o);
    }

    // Waiting for the new container: healthy, gone, stopped or too slow all end the wait. checks is
    // how many inspections the deadline and a stop request leave.
    method AwaitHealth(p: Pending, created: nat, checks: nat) returns (r: Result)
      requires Working(p) && state.pending == Some(p)
      modifies docker
      ensures Working(p) && state == old(state) && docker.firstFree >= old(docker.firstFree)
      ensures Kept(old(docker.containers), docker.containers, old(docker.firstFree))
      ensures r.Done? || r.Raised? || r.Killed?
      ensures old(docker.log) <= docker.log
      ensures r.Done? ==> Waited(docker.log, |old(docker.log)|, |docker.log|, created, checks)
    {
      var done := 0;
      while done < checks
        invariant done <= checks && |docker.log| == |old(docker.log)| + done && old(docker.log) <= docker.log
        invariant forall i :: |old(docker.log)| <= i < |docker.log| ==> Starting(docker.log[i], created)
        invariant Working(p)
        invariant Kept(old(docker.containers), docker.containers, old(docker.firstFree))
        invariant old(docker.firstFree) <= docker.firstFree
      {
        label waiting:
        var o, found := docker.Inspect(created);
        WorkingKept@waiting(p);
        if !o.Ok? {
          return Exit(o);
        }
        if found.None? || found.value.healthy || !found.value.running {
          return Done;
        }
        done := done + 1;
      }
      r := Done;
    }

    // The guarded part of update. mid is where the answers about the marker end.
    method Replace(p: Pending, rollbackName: string, polls: nat, checks: nat)
      returns (r: Result, ghost drained: bool, ghost mid: nat)
      requires Working(p) && state.pending == Some(p) && HoldsName(docker.containers, p.backup, p.name)
      modifies this, docker
      ensures Working(p) && docker.firstFree >= old(docker.firstFree)
      ensures r.Done? ==> state.pending.None? && disk.pending.None?
      ensures Touches(old(docker.containers), docker.containers, old(docker.firstFree), p, rollbackName)
      ensures r.Done? ==>
                Story(old(docker.containers), docker.containers, docker.log, |old(docker.log)|, mid, p, polls, checks,
                      drained, old(state).failed, state.failed)
    {
      var marked;
      r, marked := Drain(p, polls);
      drained, mid := marked, |docker.log|;
      KeptTouches(old(docker.containers), docker.containers, old(docker.firstFree), p, rollbackName);
      if !r.Done? {
        return;
      }
      label asked:
      if !marked {
        r := RecoverPair(p);
        TouchesByName(old@asked(docker.containers), docker.containers, old@asked(docker.firstFree), p, rollbackName);
        TouchesTransitive(old(docker.containers), old@asked(docker.containers), docker.containers,
                        old(docker.firstFree), old@asked(docker.firstFree), p, rollbackName);
        return;
      }
      r := Exchange(p, rollbackName, checks);
      TouchesTransitive(old(docker.containers), old@asked(docker.containers), docker.containers,
                        old(docker.firstFree), old@asked(docker.firstFree), p, rollbackName);
    }

    // Once drained: save, exchange the containers, wait, and let recover decide.
    method Exchange(p: Pending, rollbackName: string, checks: nat) returns (r: Result)
      requires p.backup in docker.seenDrained
      requires Working(p) && state.pending == Some(p) && BackedUp(docker.containers, p)
      modifies this, docker
      ensures Working(p) && docker.firstFree >= old(docker.firstFree)
      ensures r.Done? ==> state.pending.None? && disk.pending.None?
      ensures Touches(old(docker.containers), docker.containers, old(docker.firstFree), p, rollbackName)
      ensures old(docker.log) <= docker.log
      ensures r.Done? ==>
                Exchanged(old(docker.containers), docker.containers, docker.log, |old(docker.log)|, p, checks,
                          old(state).failed, state.failed)
    {
      // The durable recovery record precedes the first destructive action.
      var o;
      ghost var written;
      o, written := Save();
      KeptTouches(docker.containers, docker.containers, docker.firstFree, p, rollbackName);
      if !o.Ok? {
        return Exit(o);
      }
      var created;
      r, created := Swap(p, rollbackName);
      if !r.Done? {
        return;
      }
      label swapped:
      r := Finish(p, rollbackName, created, checks);
      TouchesTransitive(old(docker.containers), old@swapped(docker.containers), docker.containers,
                        old(docker.firstFree), old@swapped(docker.firstFree), p, rollbackName);
    }

    // Wait for the new container, then recover decides.
    method Finish(p: Pending, rollbackName: string, created: nat, checks: nat) returns (r: Result)
      requires Working(p) && state.pending == Some(p)
      requires created != p.backup && RunsAs(docker.containers, created, p.name)
      modifies this, docker
      ensures Working(p) && docker.firstFree >= old(docker.firstFree)
      ensures r.Done? ==> state.pending.None? && disk.pending.None?
      ensures Touches(old(docker.containers), docker.containers, old(docker.firstFree), p, rollbackName)
      ensures old(docker.log) <= docker.log
      ensures r.Done? ==>
                Finished(docker.containers, docker.log, |old(docker.log)|, p, created, checks,
                         old(state).failed, state.failed)
    {
      r := AwaitHealth(p, created, checks);
      KeptTouches(old(docker.containers), docker.containers, old(docker.firstFree), p, rollbackName);
      if !r.Done? {
        return;
      }
      label waited:
      r := RecoverPair(p);
      TouchesByName(old@waited(docker.containers), docker.containers, old@waited(docker.firstFree), p, rollbackName);
      TouchesTransitive(old(docker.containers), old@waited(docker.containers), docker.containers,
                        old(docker.firstFree), old@waited(docker.firstFree), p, rollbackName);
      if r.Done? {
        FinishedBy(old@waited(docker.containers), docker.containers, old@waited(docker.log), docker.log,
                   |old(docker.log)|, p, created, checks, old(state).failed, state.failed);
      }
    }

    // update. snapshot is the inspection reconcile made, which may be out of date by now;
    // current, drainable and the pulled image are what the registry and the labels say. recorded
    // says whether the first save took effect.
    method Update(ident: nat, snapshot: Container, role: string, image: string,
                  current: bool, drainable: bool, rollbackName: string, polls: nat, checks: nat)
      returns (r: Result, ghost drained: bool, ghost recorded: bool, ghost mid: nat)
      requires Valid() && state.pending.None?
      requires HoldsName(docker.containers, ident, snapshot.name) && ident < docker.firstFree
      modifies this, docker
      ensures Valid()
      // Whenever the pair is not settled, under the service name and with one container, the
      // journal on disk knows it.
      ensures var p := Pending(ident, snapshot.started, snapshot.name, role, image);
              && Accounted(docker.containers, p, docker.seenHealthy)
              && (disk.pending == Some(p) || PairSettled(docker.containers, p))
              && (state.pending.Some? ==> state.pending == Some(p))
              && (r.Done? ==> state.pending.None? && PairSettled(docker.containers, p)
                              && (disk == old(disk) || disk.pending.None?))
      // Nothing happens before the entry is on disk, and the entry replaces whatever was there.
      ensures if recorded then disk.pending == Some(Pending(ident, snapshot.started, snapshot.name, role, image))
                               || disk.pending.None?
              else disk == old(disk) && docker.acts == old(docker.acts)
      // Unless there is a reason to leave the container alone, an update that returns normally has
      // asked it to drain, waited for the marker, exchanged the containers once it was seen, and
      // committed or rolled back by the health of the new one.
      ensures r.Done? ==> (recorded <==> !LeftAlone(old(state), snapshot, role, image, current, drainable))
      ensures r.Done? && recorded ==>
                Story(old(docker.containers), docker.containers, docker.log, |old(docker.log)|, mid,
                      Pending(ident, snapshot.started, snapshot.name, role, image), polls, checks,
                      drained, old(state).failed, state.failed)
      // Other containers are none of its business.
      ensures Touches(old(docker.containers), docker.containers, old(docker.firstFree),
                      Pending(ident, snapshot.started, snapshot.name, role, image), rollbackName)
      ensures docker.firstFree >= old(docker.firstFree)
      // A quarantined image, an up-to-date container, one that cannot drain and one that is not
      // healthy are left alone.
      ensures LeftAlone(old(state), snapshot, role, image, current, drainable) ==>
                docker.acts == old(docker.acts) && state == old(state) && disk == old(disk)
    {
      ghost var p0 := Pending(ident, snapshot.started, snapshot.name, role, image);
      recorded, drained, mid := false, false, 0;
      if role in state.failed && state.failed[role] == image {
        r := Done;
        return;
      }
      var o := docker.Query();
      ValidKept();
      KeptSafe(old(docker.containers), docker.containers, old(docker.firstFree), p0);
      KeptTouches(old(docker.containers), docker.containers, old(docker.firstFree), p0, rollbackName);
      if !o.Ok? {
        r := Exit(o);
        return;
      }
      if current || !drainable || !snapshot.healthy {
        r := Done;
        return;
      }
      var p := Pending(ident, snapshot.started, snapshot.name, role, image);
      label pulled:
      r, drained, recorded, mid := Undertake(p, rollbackName, polls, checks);
      if r.Done? {
        StoryFrom(old(docker.containers), old@pulled(docker.containers), docker.containers, docker.log,
                  |old(docker.log)|, mid, p, polls, checks, drained, old(state).failed, state.failed);
      }
      TouchesTransitive(old(docker.containers), old@pulled(docker.containers), docker.containers,
                        old(docker.firstFree), old@pulled(docker.firstFree), p, rollbackName);
    }

    // The entry is written before anything else.
    method Undertake(p: Pending, rollbackName: string, polls: nat, checks: nat)
      returns (r: Result, ghost drained: bool, ghost recorded: bool, ghost mid: nat)
      requires Valid() && state.pending.None?
      requires HoldsName(docker.containers, p.backup, p.name) && p.backup < docker.firstFree
      modifies this, docker
      ensures Valid() && Accounted(docker.containers, p, docker.seenHealthy)
      ensures disk.pending == Some(p) || PairSettled(docker.containers, p)
      ensures state.pending.Some? ==> state.pending == Some(p)
      ensures r.Done? ==> recorded && state.pending.None? && disk.pending.None? && PairSettled(docker.containers, p)
      ensures if recorded then disk.pending == Some(p) || disk.pending.None?
              else disk == old(disk) && docker.acts == old(docker.acts)
      ensures r.Done? ==>
                Story(old(docker.containers), docker.containers, docker.log, |old(docker.log)|, mid, p, polls, checks,
                      drained, old(state).failed, state.failed)
      ensures Touches(old(docker.containers), docker.containers, old(docker.firstFree), p, rollbackName)
      ensures docker.firstFree >= old(docker.firstFree)
    {
      drained, mid := false, 0;
      KeptTouches(docker.containers, docker.containers, docker.firstFree, p, rollbackName);
      state := state.(pending := Some(p));
      var o;
      o, recorded := Save();
      if !o.Ok? {
        r := Exit(o);
        return;
      }
      r, drained, mid := Guarded(p, rollbackName, polls, checks);
    }

    // The guarded part with its handler: an exception recovers at once and is raised again.
    method Guarded(p: Pending, rollbackName: string, polls: nat, checks: nat)
      returns (r: Result, ghost drained: bool, ghost mid: nat)
      requires Working(p) && state.pending == Some(p) && HoldsName(docker.containers, p.backup, p.name)
      modifies this, docker
      ensures Working(p) && docker.firstFree >= old(docker.firstFree)
      ensures r.Done? ==> state.pending.None? && disk.pending.None?
      ensures Touches(old(docker.containers), docker.containers, old(docker.firstFree), p, rollbackName)
      ensures r.Done? ==>
                Story(old(docker.containers), docker.containers, docker.log, |old(docker.log)|, mid, p, polls, checks,
                      drained, old(state).failed, state.failed)
    {
      r, drained, mid := Replace(p, rollbackName, polls, checks);
      if r.Raised? || r.Refused? {
        label raised:
        r := RecoverPair(p);
        TouchesByName(old@raised(docker.containers), docker.containers, old@raised(docker.firstFree), p, rollbackName);
        TouchesTransitive(old(docker.containers), old@raised(docker.containers), docker.containers,
                        old(docker.firstFree), old@raised(docker.firstFree), p, rollbackName);
        if !r.Killed? {
          r := Raised;
        }
      }
    }
  }

  // ----- several services over one journal -----

  // The service has a managed container under its name, or the journal on disk names a managed
  // backup that the next recovery can put back.
  predicate Alive(cs: Fleet, disk: Journal, service: string) {
    Served(cs, service)
    || (disk.pending.Some? && disk.pending.value.name == service && BackedUp(cs, disk.pending.value))
  }

  predicate AllAlive(cs: Fleet, disk: Journal, services: set<string>) {
    forall s :: s in services ==> Alive(cs, disk, s)
  }

  // The entry is for one of the services, and its old container has no other one's name.
  predicate OneService(cs: Fleet, entry: Option<Pending>, services: set<string>) {
    entry.Some? ==>
      entry.value.name in services
      && (entry.value.backup in cs && cs[entry.value.backup].name in services ==>
           cs[entry.value.backup].name == entry.value.name)
  }

  // Whoever served under another name still does.
  lemma OthersServed(before: Fleet, after: Fleet, firstFree: nat, p: Pending, aside: string,
                     services: set<string>, s: string)
    requires Touches(before, after, firstFree, p, aside) && OneService(before, Some(p), services)
    requires s in services && s != p.name && Served(before, s)
    ensures Served(after, s)
  {
    var id :| id in before && HoldsName(before, id, s);
    assert HoldsName(after, id, s);
  }

  lemma EntryKept(before: Fleet, after: Fleet, firstFree: nat, p: Pending, aside: string,
                  services: set<string>, q: Option<Pending>)
    requires Touches(before, after, firstFree, p, aside) && OneService(before, Some(p), services)
    requires aside !in services - {p.name}
    requires OneService(before, q, services) && UniqueNames(before)
    requires q.Some? ==> q.value.backup < firstFree
    requires q.Some? && q != Some(p) ==> HoldsName(before, p.backup, p.name)
    ensures OneService(after, q, services)
  {
  }

  lemma AliveKept(before: Fleet, after: Fleet, firstFree: nat, disk: Journal, services: set<string>)
    requires Kept(before, after, firstFree) && AllAlive(before, disk, services)
    ensures AllAlive(after, disk, services)
  {
    forall s | s in services
      ensures Alive(after, disk, s)
    {
      if Served(before, s) {
        var id :| id in before && HoldsName(before, id, s);
        assert HoldsName(after, id, s);
      }
    }
  }

  // What holds between any two calls of any number of reconcile rounds.
  ghost predicate Keeping(u: Updater, services: set<string>)
    reads u, u.docker
  {
    && u.Valid() && AllAlive(u.docker.containers, u.disk, services)
    && OneService(u.docker.containers, u.state.pending, services)
    && OneService(u.docker.containers, u.disk.pending, services)
  }

  // Any number of reconcile rounds for any set of services that share one journal, each possibly
  // cut short by a crash at any action and restarted from the journal on disk: every service is
  // alive after every one.
  method Lifetime(docker: Docker, services: set<string>, rounds: nat) returns (disk: Journal)
    requires docker.Valid() && forall s :: s in services ==> Served(docker.containers, s)
    modifies docker
    ensures docker.Valid() && AllAlive(docker.containers, disk, services)
  {
    var u := new Updater(docker, Journal(None, map[]));
    for round := 0 to rounds
      invariant fresh(u) && u.docker == docker && Keeping(u, services)
    {
      var order: seq<string> := *;
      var r := Round(u, services, order);
      if r.Killed? {
        u := new Updater(docker, u.disk);
      }
    }
    disk := u.disk;
  }

  // One reconcile: recover first, then look at the services' containers one by one.
  method Round(u: Updater, services: set<string>, order: seq<string>) returns (r: Result)
    requires Keeping(u, services)
    modifies u, u.docker
    ensures Keeping(u, services) && (r.Done? ==> u.state.pending.None?)
  {
    r := RecoverFirst(u, services);
    var i := 0;
    while i < |order| && r.Done?
      invariant Keeping(u, services) && (r.Done? ==> u.state.pending.None?)
    {
      if order[i] in services {
        r := UpdateService(u, services, order[i]);
      }
      i := i + 1;
    }
  }

  method RecoverFirst(u: Updater, services: set<string>) returns (r: Result)
    requires Keeping(u, services)
    modifies u, u.docker
    ensures Keeping(u, services) && (r.Done? ==> u.state.pending.None?)
  {
    ghost var kept, written;
    ghost var before, firstFree := u.docker.containers, u.docker.firstFree;
    ghost var entry, disk := u.state.pending, u.disk.pending;
    r, kept, written := u.Recover();
    if entry.Some? {
      var p := entry.value;
      forall s | s in services
        ensures Alive(u.docker.containers, u.disk, s)
      {
        if s != p.name {
          assert Served(before, s);
          OthersServed(before, u.docker.containers, firstFree, p, p.name, services, s);
        }
      }
      EntryKept(before, u.docker.containers, firstFree, p, p.name, services, entry);
      EntryKept(before, u.docker.containers, firstFree, p, p.name, services, disk);
    }
  }

  // One service's turn.
  method UpdateService(u: Updater, services: set<string>, service: string) returns (r: Result)
    requires Keeping(u, services) && u.state.pending.None? && service in services
    modifies u, u.docker
    ensures Keeping(u, services) && (r.Done? ==> u.state.pending.None?)
  {
    var o, found, seen := u.docker.Lookup(service);
    u.ValidKept();
    AliveKept(old(u.docker.containers), u.docker.containers, old(u.docker.firstFree), u.disk, services);
    if !o.Ok? {
      return Exit(o);
    }
    r := Done;
    if found.Some? && seen.running && seen.managed {
      var role: string := *;
      var image: string := *;
      var current: bool := *;
      var drainable: bool := *;
      var rollbackName: string := *;
      if rollbackName !in services {
        var polls: nat := *;
        var checks: nat := *;
        ghost var drained, recorded, mid;
        ghost var before, firstFree, disk := u.docker.containers, u.docker.firstFree, u.disk.pending;
        ghost var p := Pending(found.value, seen.started, service, role, image);
        r, drained, recorded, mid :=
          u.Update(found.value, seen, role, image, current, drainable, rollbackName, polls, checks);
        forall s | s in services
          ensures Alive(u.docker.containers, u.disk, s)
        {
          if s != service {
            OthersServed(before, u.docker.containers, firstFree, p, rollbackName, services, s);
          }
        }
        EntryKept(before, u.docker.containers, firstFree, p, rollbackName, services, Some(p));
        EntryKept(before, u.docker.containers, firstFree, p, rollbackName, services, disk);
      }
    }
  }
}
