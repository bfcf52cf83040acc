// The Docker daemon as the updater sees it: containers that other actors may restart, stop or
// join at any time, and calls that may fail or be cut off before or after they took effect.
module Containers {
  import opened Base

  // started identifies the process (State.StartedAt); draining is the effect SIGUSR1 has on it.
  datatype Container = Container(
    name: string,
    running: bool,
    healthy: bool,
    started: nat,
    draining: bool,
    managed: bool
  )

  type Fleet = map<nat, Container>

  // Of one API call: Failed is an exception, Crashed the end of the updater's own process. Only
  // Ok tells the caller that the call took effect.
  datatype Outcome = Ok | Failed | Crashed

  // What the daemon told the updater: an inspection by identity, one by name, the drain marker, and
  // that it has signalled or stopped a process, which a restart can undo at any time.
  datatype Answer =
    | ById(id: nat, found: Option<Container>)
    | ByName(name: string, holder: Option<(nat, Container)>)
    | Marker(id: nat, drained: bool)
    | Signalled(id: nat, drain: bool)
    | Halted(id: nat)

  predicate UniqueNames(cs: Fleet) {
    forall a, b :: a in cs && b in cs && cs[a].name == cs[b].name ==> a == b
  }

  // A drain is the state of a process, so it takes a running one.
  predicate DrainsRun(cs: Fleet) {
    forall id :: id in cs && cs[id].draining ==> cs[id].running
  }

  predicate Taken(cs: Fleet, name: string) {
    exists id :: id in cs && cs[id].name == name
  }

  // What others may do: processes stop, restart, change health; new containers appear under free
  // names. Nobody else removes, renames or relabels a container or signals a drain.
  predicate SameProcess(b: Container, a: Container) {
    a.name == b.name && a.managed == b.managed
    && (a.draining ==> b.draining && a.started == b.started)
  }

  predicate Drifted(before: Fleet, after: Fleet, firstFree: nat) {
    && UniqueNames(after) && DrainsRun(after)
    && (forall id :: id in before ==> id in after && SameProcess(before[id], after[id]))
    && (forall id :: id in after && id !in before ==> firstFree <= id)
  }

  // Nothing was removed, renamed or relabelled; whatever is new has a new identity.
  predicate Kept(before: Fleet, after: Fleet, firstFree: nat) {
    && (forall id :: id in before ==>
         id in after && after[id].name == before[id].name && after[id].managed == before[id].managed)
    && (forall id :: id in after && id !in before ==> firstFree <= id)
  }

  function Start(c: Container, started: nat): Container {
    c.(running := true, healthy := false, started := started, draining := false)
  }

  function Stop(c: Container): Container {
    c.(running := false, healthy := false, draining := false)
  }

  function Held(found: Option<nat>, seen: Container): Option<(nat, Container)> {
    if found.Some? then Some((found.value, seen)) else None
  }

  class Docker {
    var containers: Fleet
    var firstFree: nat
    // Mutating calls made so far, the answers, and the containers that were seen healthy and seen
    // drained.
    ghost var acts: nat
    ghost var log: seq<Answer>
    ghost var seenHealthy: set<nat>
    ghost var seenDrained: set<nat>

    ghost predicate Valid()
      reads this
    {
      UniqueNames(containers) && DrainsRun(containers) && forall id :: id in containers ==> id < firstFree
    }

    constructor ()
      ensures Valid() && containers == map[] && acts == 0
    {
      containers, firstFree, acts, log, seenHealthy, seenDrained := map[], 0, 0, [], {}, {};
    }

    method Drift()
      requires Valid()
      modifies this`containers, this`firstFree
      ensures Valid() && Drifted(old(containers), containers, old(firstFree)) && old(firstFree) <= firstFree
    {
      var next: Fleet := *;
      var free: nat := *;
      if Drifted(containers, next, firstFree) && firstFree <= free && forall id :: id in next ==> id < free {
        containers, firstFree := next, free;
      }
    }

    method Inspect(id: nat) returns (o: Outcome, found: Option<Container>)
      requires Valid()
      modifies this`containers, this`firstFree, this`seenHealthy, this`log
      ensures Valid() && Drifted(old(containers), containers, old(firstFree)) && old(firstFree) <= firstFree
      ensures old(seenHealthy) <= seenHealthy
      ensures log == old(log) + if o.Ok? then [ById(id, found)] else []
      ensures o.Ok? ==> (found.Some? <==> id in containers)
      ensures o.Ok? && found.Some? ==> found.value == containers[id] && (found.value.healthy ==> id in seenHealthy)
    {
      Drift();
      o := *;
      found := if id in containers then Some(containers[id]) else None;
      if found.Some? && found.value.healthy {
        seenHealthy := seenHealthy + {id};
      }
      log := log + if o.Ok? then [ById(id, found)] else [];
    }

    method Lookup(name: string) returns (o: Outcome, found: Option<nat>, seen: Container)
      requires Valid()
      modifies this`containers, this`firstFree, this`seenHealthy, this`log
      ensures Valid() && Drifted(old(containers), containers, old(firstFree)) && old(firstFree) <= firstFree
      ensures old(seenHealthy) <= seenHealthy
      ensures log == old(log) + if o.Ok? then [ByName(name, Held(found, seen))] else []
      ensures o.Ok? ==> (found.Some? <==> Taken(containers, name))
      ensures o.Ok? && found.Some? ==>
                found.value in containers && seen == containers[found.value] && seen.name == name
                && (seen.healthy ==> found.value in seenHealthy)
    {
      Drift();
      o := *;
      seen := Container("", false, false, 0, false, false);
      if id :| id in containers && containers[id].name == name {
        found, seen := Some(id), containers[id];
        if seen.healthy {
          seenHealthy := seenHealthy + {id};
        }
      } else {
        found := None;
      }
      log := log + if o.Ok? then [ByName(name, Held(found, seen))] else [];
    }

    // POST /containers/{id}/stop ends whatever the worker is doing, so it takes evidence that
    // the worker has drained. A stopped container answers with an error.
    method Halt(id: nat) returns (o: Outcome)
      requires Valid() && id in seenDrained
      modifies this`containers, this`firstFree, this`acts, this`log
      ensures Valid() && old(firstFree) <= firstFree && acts == old(acts) + 1
      ensures Kept(old(containers), containers, old(firstFree))
      ensures log == old(log) + if o.Ok? then [Halted(id)] else []
      ensures o.Ok? ==> id in containers && !containers[id].running
    {
      Drift();
      acts := acts + 1;
      var effect: bool := *;
      o := *;
      if id in containers && containers[id].running && (effect || o.Ok?) {
        containers := containers[id := Stop(containers[id])];
      } else if o.Ok? {
        o := Failed;
      }
      log := log + if o.Ok? then [Halted(id)] else [];
    }

    // POST /containers/{id}/start: a running container answers with an error.
    method StartUp(id: nat) returns (o: Outcome)
      requires Valid()
      modifies this`containers, this`firstFree, this`acts
      ensures Valid() && old(firstFree) <= firstFree && acts == old(acts) + 1
      ensures Kept(old(containers), containers, old(firstFree))
      ensures o.Ok? ==> id in containers && containers[id].running && !containers[id].draining
    {
      Drift();
      acts := acts + 1;
      var now: nat := *;
      var effect: bool := *;
      o := *;
      if id in containers && !containers[id].running && (effect || o.Ok?) {
        containers := containers[id := Start(containers[id], now)];
      } else if o.Ok? {
        o := Failed;
      }
    }

    // POST /containers/{id}/kill with SIGUSR1 (drain) or SIGUSR2 (resume) reaches the process that
    // runs at that moment; a stopped container answers with an error.
    method Kill(id: nat, drain: bool) returns (o: Outcome)
      requires Valid()
      modifies this`containers, this`firstFree, this`acts, this`log
      ensures Valid() && old(firstFree) <= firstFree && acts == old(acts) + 1
      ensures Kept(old(containers), containers, old(firstFree))
      ensures log == old(log) + if o.Ok? then [Signalled(id, drain)] else []
      ensures o.Ok? ==> id in containers && containers[id].running && containers[id].draining == drain
    {
      Drift();
      acts := acts + 1;
      var effect: bool := *;
      o := *;
      if id in containers && containers[id].running && (effect || o.Ok?) {
        containers := containers[id := containers[id].(draining := drain)];
      } else if o.Ok? {
        o := Failed;
      }
      log := log + if o.Ok? then [Signalled(id, drain)] else [];
    }

    method Rename(id: nat, name: string) returns (o: Outcome)
      requires Valid()
      modifies this`containers, this`firstFree, this`acts
      ensures Valid() && old(firstFree) <= firstFree && acts == old(acts) + 1
      ensures Kept(old(containers) - {id}, containers - {id}, old(firstFree))
      ensures id in old(containers) ==>
                id in containers && containers[id].managed == old(containers)[id].managed
                && (containers[id].name == old(containers)[id].name || containers[id].name == name)
      ensures o.Ok? ==> id in containers && containers[id].name == name
    {
      Drift();
      acts := acts + 1;
      var effect: bool := *;
      o := *;
      if id in containers && !Taken(containers, name) && (effect || o.Ok?) {
        containers := containers[id := containers[id].(name := name)];
      } else if o.Ok? {
        o := Failed;
      }
    }

    // POST /containers/create: a name that is taken is refused. Whether the copied labels make
    // the new container a managed one is up to the image.
    method Create(name: string) returns (o: Outcome, id: nat)
      requires Valid()
      modifies this`containers, this`firstFree, this`acts
      ensures Valid() && old(firstFree) <= firstFree && acts == old(acts) + 1
      ensures Kept(old(containers), containers, old(firstFree))
      ensures o.Ok? ==> id in containers && id !in old(containers) && containers[id].name == name
    {
      Drift();
      acts := acts + 1;
      id := firstFree;
      var effect: bool := *;
      var managed: bool := *;
      o := *;
      if !Taken(containers, name) && (effect || o.Ok?) {
        containers := containers[id := Container(name, false, false, 0, false, managed)];
        firstFree := firstFree + 1;
      } else if o.Ok? {
        o := Failed;
      }
    }

    method Remove(id: nat) returns (o: Outcome)
      requires Valid()
      modifies this`containers, this`firstFree, this`acts
      ensures Valid() && old(firstFree) <= firstFree && acts == old(acts) + 1
      ensures Kept(old(containers) - {id}, containers - {id}, old(firstFree))
      ensures id in containers && id in old(containers) ==>
                containers[id].name == old(containers)[id].name && containers[id].managed == old(containers)[id].managed
      ensures o.Ok? ==> id !in containers
    {
      Drift();
      acts := acts + 1;
      var effect: bool := *;
      o := *;
      if effect || o.Ok? {
        containers := containers - {id};
      }
    }

    // Pulling or describing an image: no container changes, but time passes.
    method Query() returns (o: Outcome)
      requires Valid()
      modifies this`containers, this`firstFree
      ensures Valid() && Drifted(old(containers), containers, old(firstFree)) && old(firstFree) <= firstFree
    {
      Drift();
      o := *;
    }

    // The drain marker inside the container, read through exec.
    method Drained(id: nat) returns (o: Outcome, drained: bool)
      requires Valid()
      modifies this`containers, this`firstFree, this`seenDrained, this`log
      ensures Valid() && Drifted(old(containers), containers, old(firstFree)) && old(firstFree) <= firstFree
      ensures seenDrained == old(seenDrained) + if o.Ok? && drained then {id} else {}
      ensures log == old(log) + if o.Ok? then [Marker(id, drained)] else []
    {
      Drift();
      o, drained := *, *;
      if o.Ok? && drained {
        seenDrained := seenDrained + {id};
      }
      log := log + if o.Ok? then [Marker(id, drained)] else [];
    }
  }
}
