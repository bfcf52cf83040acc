// Concurrent upload slots: one locked token file for each upload in progress, shared by processes
// that may die at any system call.
//
// The control lock makes each of the methods below run alone, except for deaths: the operating
// system releases the locks of a dead process at any time, also in the middle of a method.
module UploadSlots {
  import opened Base

  // A token file, by the process that created it and its random name.
  datatype Token = Token(owner: nat, name: nat)

  function Surviving(tokens: set<Token>, alive: set<nat>): set<Token> {
    set t | t in tokens && t.owner in alive
  }

  datatype Outcome = Admitted | TooMany | NoRoom | Died

  class Slots {
    const limit: nat
    var alive: set<nat>        // processes
    var files: set<Token>      // the *.slot files
    var locked: set<Token>     // tokens whose file lock is held
    var uploading: set<Token>  // tokens whose upload is streaming

    ghost predicate Held()
      reads this
    {
      && uploading <= locked
      && forall t :: t in locked ==> t.owner in alive
    }

    // What holds whenever nobody holds the control lock: every upload in progress owns a locked
    // file, no more of them than allowed, and an unlocked file has a dead owner.
    ghost predicate Valid()
      reads this
    {
      && Held()
      && locked <= files
      && |locked| <= limit
      && forall t :: t in files && t.owner in alive ==> t in locked
    }

    constructor (limit: nat)
      ensures Valid() && this.limit == limit && uploading == {} && files == {}
    {
      this.limit := limit;
      alive, files, locked, uploading := {}, {}, {}, {};
    }

    method Spawn(pid: nat)
      requires Valid() && forall t :: t in files ==> t.owner != pid
      modifies this`alive
      ensures Valid() && alive == old(alive) + {pid}
    {
      alive := alive + {pid};
    }

    // Any set of processes dies between two system calls.
    method Elapse()
      requires Held()
      modifies this`alive, this`locked, this`uploading
      ensures Held() && alive <= old(alive)
      ensures locked == Surviving(old(locked), alive)
      ensures uploading == Surviving(old(uploading), alive)
    {
      var dead: set<nat> := *;
      alive := alive - dead;
      locked := Surviving(locked, alive);
      uploading := Surviving(uploading, alive);
    }

    // How far a scan of the slot files has come: counted were found locked, left are not visited
    // yet, everything else is unlinked. The scan began with the sets of the first three parameters.
    ghost predicate Scanning(files0: set<Token>, locked0: set<Token>, uploading0: set<Token>,
                             left: set<Token>, counted: set<Token>)
      reads this
    {
      && Held()
      && locked == Surviving(locked0, alive) && uploading == Surviving(uploading0, alive)
      && left !! counted && files == left + counted && counted <= locked0 <= files0
      && locked <= files <= files0
      && (forall t :: t in files0 - files ==> t.owner !in alive)
      && (forall t :: t in files && t.owner in alive ==> t in locked)
    }

    // One token of the scan: it counts if its lock is taken, otherwise the file goes.
    method Visit(t: Token, ghost files0: set<Token>, ghost locked0: set<Token>, ghost uploading0: set<Token>,
                 ghost left: set<Token>, ghost counted: set<Token>)
      returns (busy: bool)
      requires Scanning(files0, locked0, uploading0, left, counted) && t in left
      modifies this`files
      ensures Scanning(files0, locked0, uploading0, left - {t}, if busy then counted + {t} else counted)
    {
      busy := t in locked;
      if !busy {
        files := files - {t};
      }
    }

    // _active_uploads, run by process pid under the control lock. The count lies between the slots
    // held at the end and those held at the start; what is unlinked had a dead owner, and every
    // file whose owner was dead at the start is unlinked.
    method ActiveUploads(pid: nat) returns (active: nat)
      requires Valid()
      modifies this`alive, this`locked, this`uploading, this`files
      ensures Valid() && alive <= old(alive) && files <= old(files)
      ensures locked == Surviving(old(locked), alive) && uploading == Surviving(old(uploading), alive)
      ensures forall t :: t in old(files) - files ==> t.owner !in alive
      ensures pid in alive ==> |locked| <= active <= |old(locked)|
      ensures pid in alive ==> files <= old(locked)
    {
      active := 0;
      var left := files;
      ghost var files0, locked0, uploading0 := files, locked, uploading;
      ghost var counted: set<Token> := {};
      while left != {}
        invariant alive <= old(alive)
        invariant Scanning(files0, locked0, uploading0, left, counted)
        invariant active == |counted|
        decreases |left|
      {
        Elapse();
        if pid !in alive {
          break;
        }
        var t :| t in left;
        var busy := Visit(t, files0, locked0, uploading0, left, counted);
        left := left - {t};
        if busy {
          active, counted := active + 1, counted + {t};
        }
      }
      SubsetSize(locked, locked0);
      if pid in alive {
        SubsetSize(locked, counted);
        SubsetSize(counted, locked0);
      }
    }

    // The token is created and locked in two system calls; dying between them leaves an unlocked
    // file with a dead owner, which the next entry reclaims.
    method Create(token: Token)
      requires Valid() && token.owner in alive && token !in files && |locked| < limit
      modifies this
      ensures Valid() && alive <= old(alive) && files == old(files) + {token}
      ensures uploading == Surviving(old(uploading) + {token}, alive)
    {
      ghost var before := locked;
      files := files + {token};
      Elapse();
      SubsetSize(locked, before);
      if token.owner in alive {
        locked, uploading := locked + {token}, uploading + {token};
      }
    }

    // The entry of upload() with a new token name. room is the verdict of the byte budget. An upload
    // is turned away for the slots only if all of them were held when it asked.
    method Begin(token: Token, room: bool) returns (r: Outcome)
      requires Valid() && token.owner in alive && token !in files
      modifies this
      ensures Valid() && alive <= old(alive)
      ensures r.Died? <==> token.owner !in alive
      ensures r.TooMany? ==> |old(locked)| >= limit
      ensures r.NoRoom? ==> !room
      ensures |old(locked)| < limit && room ==> r.Admitted? || r.Died?
      ensures uploading == Surviving(old(uploading) + if r.Admitted? then {token} else {}, alive)
      ensures forall t :: t in old(files) - files ==> t.owner !in alive
    {
      var active := ActiveUploads(token.owner);
      if token.owner !in alive {
        return Died;
      }
      if active >= limit {
        return TooMany;
      }
      if !room {
        return NoRoom;
      }
      Create(token);
      r := if token.owner in alive then Admitted else Died;
    }

    // The exit of upload(): the stream is over, the token goes away under the control lock.
    method End(token: Token)
      requires Valid() && token in uploading
      modifies this`alive, this`locked, this`uploading, this`files
      ensures Valid() && alive <= old(alive)
      ensures uploading == Surviving(old(uploading) - {token}, alive)
      ensures token.owner in alive ==> files == old(files) - {token} && token !in locked
    {
      ghost var before := locked;
      uploading := uploading - {token};
      Elapse();
      SubsetSize(locked, before);
      if token.owner !in alive {
        return;
      }
      files := files - {token};
      Elapse();
      locked := locked - {token};
      SubsetSize(locked, before);
    }
  }

  // Any interleaving of starts, entries, exits and deaths: the uploads in progress never outnumber
  // the limit.
  method AnyProcesses(s: Slots, rounds: nat)
    requires s.Valid()
    modifies s
    ensures s.Valid() && |s.uploading| <= s.limit
  {
    for i := 0 to rounds
      invariant s.Valid()
    {
      var pid: nat := *;
      var token: Token := *;
      var room: bool := *;
      if token in s.uploading {
        s.End(token);
      } else if token.owner in s.alive && token !in s.files {
        var r := s.Begin(token, room);
      } else if forall t :: t in s.files ==> t.owner != pid {
        s.Spawn(pid);
      } else {
        ghost var before := s.locked;
        s.Elapse();
        SubsetSize(s.locked, before);
      }
    }
    SubsetSize(s.uploading, s.locked);
  }
}
