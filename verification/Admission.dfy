// Upload admission: a byte budget on the job volume and a bounded number of upload slots, kept
// by processes that share only a file lock and may die at any point.
module Admission {
  import opened Base

  // ----- the byte budget -----

  // A file by its directory (0 is the storage root) and name.
  datatype Path = Path(dir: nat, name: nat)

  function RoundUp(n: nat, block: nat): nat
    requires block > 0
  {
    ((n + block - 1) / block) * block
  }

  // The greater of st_size and the allocated blocks.
  function Accounted(size: nat, block: nat): nat
    requires block > 0
  {
    if size >= RoundUp(size, block) then size else RoundUp(size, block)
  }

  function Blocks(n: nat, block: nat): nat
    requires block > 0
  {
    (n + block - 1) / block
  }

  lemma RoundUpBounds(n: nat, block: nat)
    requires block > 0
    ensures n <= Blocks(n, block) * block == RoundUp(n, block) < n + block
    ensures n == 0 ==> RoundUp(n, block) == 0
  {
    var q := Blocks(n, block);
    assert n + block - 1 == block * q + (n + block - 1) % block;
    assert q * block == block * q;
    if n == 0 {
      assert (block - 1) / block == 0;
    }
  }

  // Appending never allocates more than the appended bytes would in a file of their own, even
  // when they straddle a block the file already owns.
  lemma RoundUpSubadditive(size: nat, extra: nat, block: nat)
    requires block > 0
    ensures RoundUp(size + extra, block) <= RoundUp(size, block) + RoundUp(extra, block)
  {
    RoundUpBounds(size, block);
    RoundUpBounds(extra, block);
    RoundUpBounds(size + extra, block);
    var a, b, c := Blocks(size, block), Blocks(extra, block), Blocks(size + extra, block);
    Distribute(a, b, block);
    FewestBlocks(a + b, c, size + extra, block);
    Monotone(c, a + b, block);
  }

  lemma Distribute(a: nat, b: nat, block: nat)
    ensures (a + b) * block == a * block + b * block
  {
  }

  // No number of blocks that holds n bytes is smaller than the rounded one.
  lemma FewestBlocks(k: nat, c: nat, n: nat, block: nat)
    requires block > 0 && c * block < n + block && n <= k * block
    ensures c <= k
  {
    Distribute(k, 1, block);
    if c > k {
      Monotone(k + 1, c, block);
    }
  }

  lemma Monotone(a: nat, b: nat, block: nat)
    requires a <= b
    ensures a * block <= b * block
  {
    assert b * block == a * block + (b - a) * block;
    assert (b - a) * block >= 0;
  }

  lemma AppendAccounting(size: nat, written: nat, extra: nat, block: nat)
    requires block > 0 && written <= extra
    ensures Accounted(size + written, block) <= Accounted(size, block) + RoundUp(extra, block)
  {
    RoundUpSubadditive(size, written, block);
    RoundUpBounds(size, block);
    RoundUpBounds(size + written, block);
    RoundUpBounds(written, block);
    RoundUpBounds(extra, block);
    FewestBlocks(Blocks(extra, block), Blocks(written, block), written, block);
    Monotone(Blocks(written, block), Blocks(extra, block), block);
  }

  // ----- totals over files -----

  ghost function Pick(m: map<Path, nat>): (p: Path)
    requires m != map[]
    ensures p in m
  {
    var p :| p in m;
    p
  }

  // What storage_bytes measures when nothing moves.
  ghost function Usage(files: map<Path, nat>, block: nat): nat
    requires block > 0
    decreases |files|
  {
    if files == map[] then 0
    else Accounted(files[Pick(files)], block) + Usage(files - {Pick(files)}, block)
  }

  lemma {:induction false} UsageSplit(files: map<Path, nat>, p: Path, block: nat)
    requires block > 0 && p in files
    ensures Usage(files, block) == Accounted(files[p], block) + Usage(files - {p}, block)
    decreases |files|
  {
    var q := Pick(files);
    if q != p {
      UsageSplit(files - {q}, p, block);
      UsageSplit(files - {p}, q, block);
      assert files - {q} - {p} == files - {p} - {q};
    }
  }

  // Every file still there is as large as before, or empty.
  predicate Shrinks(before: map<Path, nat>, after: map<Path, nat>) {
    forall p :: p in after ==> after[p] == 0 || (p in before && after[p] == before[p])
  }

  lemma {:induction false} UsageShrinks(before: map<Path, nat>, after: map<Path, nat>, block: nat)
    requires block > 0 && Shrinks(before, after)
    ensures Usage(after, block) <= Usage(before, block)
    decreases |after|
  {
    if after != map[] {
      var p := Pick(after);
      RoundUpBounds(0, block);
      if p in before {
        UsageSplit(before, p, block);
        UsageShrinks(before - {p}, after - {p}, block);
      } else {
        UsageShrinks(before, after - {p}, block);
      }
    }
  }

  function Within(files: map<Path, nat>, seen: set<Path>): map<Path, nat> {
    map p | p in files && p in seen :: files[p]
  }

  lemma WithinAdd(files: map<Path, nat>, seen: set<Path>, p: Path, block: nat)
    requires block > 0 && p !in seen
    ensures Usage(Within(files, seen + {p}), block)
         == Usage(Within(files, seen), block) + if p in files then Accounted(files[p], block) else 0
  {
    var more := Within(files, seen + {p});
    if p in files {
      UsageSplit(more, p, block);
      assert more - {p} == Within(files, seen);
    } else {
      assert more == Within(files, seen);
    }
  }

  datatype WriteResult = Written | Incomplete | CapacityExceeded | ScanFailed

  class Volume {
    const block: nat
    const limit: nat
    var files: map<Path, nat>
    var dirs: set<nat>

    ghost predicate Valid()
      reads this
    {
      block > 0 && forall p :: p in files ==> p.dir == 0 || p.dir in dirs
    }

    constructor (block: nat, limit: nat)
      requires block > 0
      ensures Valid() && files == map[] && this.block == block && this.limit == limit
    {
      this.block, this.limit := block, limit;
      files, dirs := map[], {};
    }

    // What other processes may do without the admission lock: delete files, create empty ones,
    // make and remove directories. Writing and renaming need the lock.
    method Interfere()
      requires Valid()
      modifies this
      ensures Valid() && Shrinks(old(files), files)
    {
      var next: map<Path, nat> := *;
      var nextDirs: set<nat> := *;
      if Shrinks(files, next) && forall p :: p in next ==> p.dir == 0 || p.dir in nextDirs {
        files, dirs := next, nextDirs;
      }
    }

    // storage_bytes: directories are listed one after the other, each file is measured when its
    // turn comes, and files may go away in between. A directory that vanished fails the scan.
    method StorageBytes() returns (total: Option<nat>)
      requires Valid()
      modifies this
      ensures Valid() && Shrinks(old(files), files)
      ensures total.Some? ==> Usage(files, block) <= total.value <= Usage(old(files), block)
      ensures total.None? ==> exists d :: d in old(dirs) && d !in dirs
    {
      ghost var seen: set<Path> := {};
      var sum := 0;
      var left := dirs + {0};
      ghost var before := files;
      assert Within(files, seen) == map[];
      while left != {}
        invariant Scanning(before, seen, left, {}, sum) && left <= old(dirs) + {0}
        decreases |left|
      {
        var d :| d in left;
        Elapse(before, seen, left, {}, sum);
        left := left - {d};
        if d != 0 && d !in dirs {
          return None;
        }
        sum, seen := MeasureDirectory(d, left, before, seen, sum);
      }
      total := Some(sum);
      UsageShrinks(Within(files, seen), files, block);
      UsageShrinks(before, Within(before, seen), block);
    }

    // What holds in the middle of a scan that began with the files before: seen is measured, left
    // are the directories and names the files of the current directory still to visit.
    ghost predicate Scanning(before: map<Path, nat>, seen: set<Path>, left: set<nat>, names: set<Path>, sum: nat)
      reads this
    {
      && Valid() && Shrinks(before, files)
      && (forall p :: p in files && files[p] > 0 ==> p in seen || p in names || p.dir in left)
      && (forall p :: p in seen ==> p !in names && p.dir !in left)
      && Usage(Within(files, seen), block) <= sum <= Usage(Within(before, seen), block)
    }

    method MeasureDirectory(d: nat, ghost left: set<nat>, ghost before: map<Path, nat>,
                            ghost seen: set<Path>, sum: nat)
      returns (sum': nat, ghost seen': set<Path>)
      requires Scanning(before, seen, left + {d}, {}, sum) && d !in left
      modifies this
      ensures Scanning(before, seen', left, {}, sum')
    {
      sum', seen' := sum, seen;
      var names := set p | p in files && p.dir == d;
      while names != {}
        invariant Scanning(before, seen', left, names, sum')
        invariant forall p :: p in names ==> p.dir == d
        decreases |names|
      {
        var p :| p in names;
        Elapse(before, seen', left, names, sum');
        names := names - {p};
        WithinAdd(files, seen', p, block);
        WithinAdd(before, seen', p, block);
        RoundUpBounds(0, block);
        if p in files {
          sum' := sum' + Accounted(files[p], block);
        }
        seen' := seen' + {p};
      }
    }

    // Time passes between two system calls of the scan.
    method Elapse(ghost before: map<Path, nat>, ghost seen: set<Path>, ghost left: set<nat>,
                  ghost names: set<Path>, ghost sum: nat)
      requires Scanning(before, seen, left, names, sum)
      modifies this
      ensures Scanning(before, seen, left, names, sum)
    {
      Interfere();
      UsageShrinks(Within(old(files), seen), Within(files, seen), block);
    }

    // write, under the admission lock. fits is the free-space reserve, written how much the
    // operating system took, scanned the files at the end of the scan.
    method Write(p: Path, extra: nat, fits: bool, written: nat)
      returns (r: WriteResult, ghost scanned: map<Path, nat>)
      requires Valid() && written <= extra
      modifies this
      ensures Valid()
      // A chunk is written only within the limit, and refused only when the files and the chunk
      // together exceed it, when the reserve does not suffice, or when a directory vanished.
      ensures r.Written? || r.Incomplete? ==> (Usage(files, block) <= limit && fits) || extra == 0
      ensures r.CapacityExceeded? ==> !fits || Usage(old(files), block) + RoundUp(extra, block) > limit
      ensures r.ScanFailed? ==> exists d :: d in old(dirs) && d !in dirs
      ensures r.CapacityExceeded? || r.ScanFailed? || extra == 0 ==> Usage(files, block) <= Usage(old(files), block)
      // It goes to the end of its file, unless somebody deleted that, and nowhere else.
      ensures Shrinks(old(files), scanned)
      ensures r.Written? ==> written == extra || extra == 0
      ensures r.Incomplete? ==> written < extra
      ensures files ==
              if extra > 0 && (r.Written? || r.Incomplete?) && p in scanned then scanned[p := scanned[p] + written]
              else scanned
    {
      scanned := files;
      if extra == 0 {
        r := Written;
        return;
      }
      var total := StorageBytes();
      scanned := files;
      UsageShrinks(old(files), files, block);
      if total.None? {
        r := ScanFailed;
        return;
      }
      if total.value + RoundUp(extra, block) > limit || !fits {
        r := CapacityExceeded;
        return;
      }
      if p in files {
        UsageSplit(files, p, block);
        AppendAccounting(files[p], written, extra, block);
        ghost var rest := files - {p};
        files := files[p := files[p] + written];
        UsageSplit(files, p, block);
        assert files - {p} == rest;
      }
      r := if written == extra then Written else Incomplete;
    }

    // The rename that publishes an upload, under the admission lock.
    method Publish(partial: Path, final: Path)
      requires Valid() && partial in files && partial != final && partial.dir == final.dir
      modifies this
      ensures Valid() && files == (old(files) - {partial})[final := old(files)[partial]]
      ensures Usage(files, block) <= Usage(old(files), block)
    {
      RenameUsage(files, partial, final, block);
      files := (files - {partial})[final := files[partial]];
    }
  }

  lemma RenameUsage(files: map<Path, nat>, partial: Path, final: Path, block: nat)
    requires block > 0 && partial in files && partial != final
    ensures Usage((files - {partial})[final := files[partial]], block) <= Usage(files, block)
  {
    var rest := files - {partial};
    var renamed := rest[final := files[partial]];
    UsageSplit(files, partial, block);
    UsageSplit(renamed, final, block);
    assert renamed - {final} == rest - {final};
    UsageShrinks(rest, rest - {final}, block);
  }

  // Any number of cooperating writers, in any order, with deletions at any time: the accounted
  // total never leaves the limit.
  method AnyWriters(v: Volume, rounds: nat)
    requires v.Valid() && Usage(v.files, v.block) <= v.limit
    modifies v
    ensures v.Valid() && Usage(v.files, v.block) <= v.limit
  {
    for i := 0 to rounds
      invariant v.Valid() && Usage(v.files, v.block) <= v.limit
    {
      var p: Path := *;
      var final: Path := *;
      var extra: nat := *;
      var written: nat := *;
      var fits: bool := *;
      var choice: int := *;
      ghost var before := v.files;
      if choice == 0 && written <= extra {
        ghost var scanned;
        var r;
        r, scanned := v.Write(p, extra, fits, written);
      } else if choice == 1 && p in v.files && p != final && p.dir == final.dir {
        v.Publish(p, final);
      } else {
        v.Interfere();
        UsageShrinks(before, v.files, v.block);
      }
    }
  }
}
