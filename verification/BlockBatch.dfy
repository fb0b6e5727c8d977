/** The batch operations of the block store, run by one process: the loops that store, load and
    look up a list of blocks, stop at the first error and report it. */
module BlockBatch {
  import opened BlockStore

  const ENOENT := 2
  const EEXIST := 17

  datatype StoreResult = Stored | StoreValueError | StoreError(index: nat, errno: int)
  datatype LoadResult = Loaded | LoadValueError | LoadError(numSucceeded: nat, errno: int)

  // ---- what a batch of stores leaves behind ----

  /** A store writes its block only where the destination is absent. */
  function StoreOne(files: map<Path, Block>, dest: Path, src: Block): map<Path, Block> {
    if dest in files then files else files[dest := src]
  }

  function StoreAll(files: map<Path, Block>, dests: seq<Path>, srcs: seq<Block>): map<Path, Block>
    requires |dests| == |srcs|
  {
    if dests == [] then files
    else
      var n := |dests| - 1;
      StoreOne(StoreAll(files, dests[..n], srcs[..n]), dests[n], srcs[n])
  }

  /** The files, with the first `leftover` bytes of a store left under its temporary name. */
  function WithLeftover(files: map<Path, Block>, tmp: Path, src: Block, leftover: int): map<Path, Block>
    requires -1 <= leftover <= |src|
  {
    if leftover == -1 then files else files[tmp := src[..leftover]]
  }

  /** The first position of a path in a list that contains it. */
  function First(dests: seq<Path>, p: Path): (i: nat)
    requires p in dests
    ensures i < |dests| && dests[i] == p && p !in dests[..i]
  {
    if dests[0] == p then 0 else First(dests[1..], p) + 1
  }

  /** After a batch of stores a path holds what it held before, or else the first buffer of the
      batch for that path, or nothing if the batch does not name it. */
  lemma {:induction false} FirstBufferWins(files: map<Path, Block>, dests: seq<Path>, srcs: seq<Block>, p: Path)
    requires |dests| == |srcs|
    ensures p in StoreAll(files, dests, srcs) <==> p in files || p in dests
    ensures p in files ==> StoreAll(files, dests, srcs)[p] == files[p]
    ensures p !in files && p in dests ==> StoreAll(files, dests, srcs)[p] == srcs[First(dests, p)]
  {
    if dests != [] {
      var n := |dests| - 1;
      FirstBufferWins(files, dests[..n], srcs[..n], p);
      FirstOfMore(dests, n, p);
    }
  }

  lemma FirstOfMore(dests: seq<Path>, n: nat, p: Path)
    requires |dests| == n + 1
    ensures p in dests <==> p in dests[..n] || p == dests[n]
    ensures p in dests ==> First(dests, p) == if p in dests[..n] then First(dests[..n], p) else n
  {
    assert dests == dests[..n] + [dests[n]];
    if p in dests[..n] {
      var i := First(dests[..n], p);
      assert dests[..n][..i] == dests[..i];
      FirstUnique(dests, p, i);
    } else if p == dests[n] {
      FirstUnique(dests, p, n);
    }
  }

  lemma FirstUnique(dests: seq<Path>, p: Path, i: nat)
    requires i < |dests| && dests[i] == p && p !in dests[..i]
    ensures p in dests && First(dests, p) == i
  {
  }

  class FileSystem {
    var files: map<Path, Block>
    /** The errnos of the system calls that have failed so far; a short write counts as EIO. */
    ghost var errors: seq<int>

    constructor (files: map<Path, Block>)
      ensures this.files == files
    {
      this.files := files;
    }

    /** A system call: 0, or an errno. */
    method Attempt() returns (err: int)
      modifies this`errors
      ensures err >= 0 && errors == old(errors) + if err != 0 then [err] else []
    {
      err := AnyErrno();
      errors := errors + if err != 0 then [err] else [];
    }

    /** One store. Every call after the existence check may fail. If even the removal of the
        temporary file fails, `leftover` is the number of bytes it holds; otherwise it is -1. */
    method StoreBlock(tmp: Path, dest: Path, src: Block) returns (err: int, ghost leftover: int)
      modifies this
      ensures err >= 0 && -1 <= leftover <= |src|
      ensures err == 0 ==> files == StoreOne(old(files), dest, src) && leftover == -1
      ensures err != 0 ==> dest !in old(files) && files == WithLeftover(old(files), tmp, src, leftover)
      ensures leftover != -1 ==> tmp !in old(files) && |errors| == |old(errors)| + 2
      // it reports the first failing call, whatever the clean-up meets
      ensures old(errors) <= errors && (err == 0 ==> errors == old(errors))
      ensures errors != old(errors) ==> err == errors[|old(errors)|]
      ensures errors == old(errors) ==> err == if dest in old(files) || tmp !in old(files) then 0 else EEXIST
    {
      leftover := -1;
      if dest in files {
        return 0, -1;
      }
      err := Attempt();  // parent directories
      if err != 0 {
        return;
      }
      err := Attempt();  // open with O_EXCL
      if err != 0 || tmp in files {
        return if err != 0 then err else EEXIST, -1;
      }
      var written: nat;
      err, written := WriteTemporary(tmp, src);
      if err == 0 {
        err := Attempt();  // close
      }
      if err == 0 {
        err := Attempt();  // rename
        if err == 0 {
          files := (files - {tmp})[dest := files[tmp]];
          assert files == old(files)[dest := src];
          return;
        }
      }
      leftover := Discard(tmp, src, written, old(files));
    }

    /** The unlink of the temporary file, whose failure is not reported. */
    method Discard(tmp: Path, src: Block, written: nat, ghost before: map<Path, Block>) returns (ghost leftover: int)
      requires written <= |src| && tmp !in before && files == before[tmp := src[..written]]
      modifies this
      ensures leftover == -1 || leftover == written
      ensures files == WithLeftover(before, tmp, src, leftover)
      ensures old(errors) <= errors && |errors| == |old(errors)| + if leftover == -1 then 0 else 1
    {
      leftover := -1;
      var failed := Attempt();
      if failed == 0 {
        files := files - {tmp};
        assert files == before;
      } else {
        leftover := written;
      }
    }

    /** Creates and writes the temporary file; a short or failing write leaves part of the buffer. */
    method WriteTemporary(tmp: Path, src: Block) returns (err: int, written: nat)
      modifies this
      ensures err >= 0 && written <= |src| && (err == 0 ==> written == |src|)
      ensures errors == old(errors) + if err != 0 then [err] else []
      ensures files == old(files)[tmp := src[..written]]
      ensures err == 0 ==> files == old(files)[tmp := src]
    {
      files := files[tmp := []];
      written := AnyLength(|src|);
      files := files[tmp := src[..written]];
      err := Attempt();
      if written != |src| && err == 0 {
        err := EIO;
        errors := errors + [EIO];
      }
      assert written == |src| ==> src[..written] == src;
    }

    /** A batch of stores: on error at index k exactly the stores before k have taken place. */
    method BatchStore(tmps: seq<Path>, dests: seq<Path>, srcs: seq<Block>)
      returns (r: StoreResult, ghost leftover: int)
      modifies this
      ensures r.StoreValueError? <==> |dests| != |tmps| || |srcs| != |tmps|
      ensures r.StoreValueError? ==> files == old(files)
      ensures r.Stored? ==> files == StoreAll(old(files), dests, srcs) && leftover == -1 && errors == old(errors)
      ensures r.StoreError? ==>
        var k := r.index;
        && k < |dests| && r.errno > 0
        && dests[k] !in StoreAll(old(files), dests[..k], srcs[..k])
        && -1 <= leftover <= |srcs[k]| && (leftover != -1 ==> |errors| == |old(errors)| + 2)
        && files == WithLeftover(StoreAll(old(files), dests[..k], srcs[..k]), tmps[k], srcs[k], leftover)
      // without a failing call, the batch stops exactly at the first store whose temporary name is taken
      ensures old(errors) <= errors
      ensures errors == old(errors) && r.Stored? ==> forall j :: 0 <= j < |tmps| ==> !Blocked(old(files), tmps, dests, srcs, j)
      ensures errors != old(errors) && r.StoreError? ==> r.errno == errors[|old(errors)|]
      ensures errors == old(errors) && r.StoreError? ==>
        && r.errno == EEXIST && Blocked(old(files), tmps, dests, srcs, r.index)
        && forall j :: 0 <= j < r.index ==> !Blocked(old(files), tmps, dests, srcs, j)
    {
      leftover := -1;
      if |dests| != |tmps| || |srcs| != |tmps| {
        return StoreValueError, -1;
      }
      for i := 0 to |tmps|
        invariant files == StoreAll(old(files), dests[..i], srcs[..i]) && errors == old(errors)
        invariant forall j :: 0 <= j < i ==> !Blocked(old(files), tmps, dests, srcs, j)
      {
        assert dests[..i + 1][..i] == dests[..i] && srcs[..i + 1][..i] == srcs[..i];
        var err, left := StoreBlock(tmps[i], dests[i], srcs[i]);
        if err != 0 {
          return StoreError(i, err), left;
        }
      }
      assert dests[..|tmps|] == dests && srcs[..|tmps|] == srcs;
      return Stored, -1;
    }

    /** One load. A success copies the first bytes of the file; a file that is too short is removed
        (the removal may fail); any other failure leaves the file system as it was. */
    method LoadBlock(path: Path, dst: array<Byte>) returns (err: int)
      modifies this, dst
      ensures err >= 0
      ensures Blames(err, old(errors), errors, Short(old(files), path, dst.Length))
      ensures errors == old(errors) ==>
        && err == LoadErrno(old(files), path, dst.Length)
        && (Short(old(files), path, dst.Length) ==> files == old(files) - {path})
      ensures err == 0 ==>
        files == old(files) && Holds(files, path, dst)
      ensures err != 0 ==>
        files == old(files) || (files == old(files) - {path} && Short(old(files), path, dst.Length) && err == EIO)
    {
      err := Attempt();
      if err != 0 || path !in files {
        return if err != 0 then err else ENOENT;  // open
      }
      err := Attempt();
      if err != 0 {
        return;  // read
      }
      var file := files[path];
      var count := if |file| < dst.Length then |file| else dst.Length;
      forall i | 0 <= i < count {
        dst[i] := file[i];
      }
      if count < dst.Length {
        err := Attempt();
        if err == 0 {
          files := files - {path};
        }
        return EIO;
      }
      return 0;
    }

    /** The load of block i, which leaves the blocks before it in place unless it reuses a buffer. */
    method LoadNext(paths: seq<Path>, dsts: seq<array<Byte>>, i: nat) returns (err: int)
      requires i < |paths| == |dsts| && LoadedUpTo(files, paths, dsts, i, i)
      modifies this, dsts[i]
      ensures err >= 0
      ensures Blames(err, old(errors), errors, Short(old(files), paths[i], dsts[i].Length))
      ensures errors == old(errors) ==> err == LoadErrno(old(files), paths[i], dsts[i].Length)
      ensures errors == old(errors) && Short(old(files), paths[i], dsts[i].Length) ==> files == old(files) - {paths[i]}
      ensures err == 0 ==> files == old(files) && LoadedUpTo(files, paths, dsts, i + 1, i + 1)
      ensures err != 0 ==>
        && LoadedUpTo(old(files), paths, dsts, i, i + 1)
        && (files == old(files) ||
             (files == old(files) - {paths[i]} && Short(old(files), paths[i], dsts[i].Length) && err == EIO))
    {
      ghost var before := files;
      assert forall j :: 0 <= j < i && LastUse(dsts, j, i + 1) ==> LastUse(dsts, j, i) && dsts[j] != dsts[i];
      err := LoadBlock(paths[i], dsts[i]);
      forall j | 0 <= j < i
        ensures LongEnough(before, paths[j], dsts[j])
        ensures LastUse(dsts, j, i + 1) ==> Holds(before, paths[j], dsts[j])
      {
        assert old(LongEnough(before, paths[j], dsts[j]) && (LastUse(dsts, j, i) ==> Holds(before, paths[j], dsts[j])));
      }
    }

    /** A batch of loads. A failure at k has loaded exactly the blocks before k, says so in
        num_succeeded, and has not touched any buffer that only later blocks use. */
    method BatchLoad(paths: seq<Path>, dsts: seq<array<Byte>>) returns (r: LoadResult)
      modifies this, set d | d in dsts
      ensures r.LoadValueError? <==> |paths| != |dsts|
      ensures r.LoadValueError? ==> files == old(files) && forall d <- dsts :: d[..] == old(d[..])
      ensures r.Loaded? ==> files == old(files) && LoadedUpTo(old(files), paths, dsts, |paths|, |paths|)
      ensures r.LoadError? ==>
        var k := r.numSucceeded;
        && k < |paths| && r.errno > 0
        && LoadedUpTo(old(files), paths, dsts, k, k + 1)
        && (files == old(files) ||
             (files == old(files) - {paths[k]} && Short(old(files), paths[k], dsts[k].Length) && r.errno == EIO))
        && (errors == old(errors) && Short(old(files), paths[k], dsts[k].Length) ==> files == old(files) - {paths[k]})
        && forall j :: 0 <= j < |dsts| && Unused(dsts, j, k + 1) ==> dsts[j][..] == old(dsts[j][..])
      // without a failing call, the batch stops exactly at the first path that is missing or too short
      ensures r.LoadError? ==>
        Blames(r.errno, old(errors), errors, Short(old(files), paths[r.numSucceeded], dsts[r.numSucceeded].Length))
      ensures !r.LoadError? ==> errors == old(errors)
      ensures errors == old(errors) && r.LoadError? ==>
        r.errno == LoadErrno(old(files), paths[r.numSucceeded], dsts[r.numSucceeded].Length)
    {
      if |paths| != |dsts| {
        return LoadValueError;
      }
      for i := 0 to |paths|
        invariant files == old(files) && errors == old(errors)
        invariant LoadedUpTo(files, paths, dsts, i, i)
        invariant forall j :: 0 <= j < |dsts| && Unused(dsts, j, i) ==> dsts[j][..] == old(dsts[j][..])
      {
        assert dsts[i] in dsts;
        assert forall j :: 0 <= j < |dsts| && Unused(dsts, j, i + 1) ==> Unused(dsts, j, i) && dsts[j] != dsts[i];
        var err := LoadNext(paths, dsts, i);
        if err != 0 {
          return LoadError(i, err);
        }
      }
      return Loaded;
    }

    /** Look-up: one flag per path, true exactly for the paths that exist. */
    method BatchLookup(paths: seq<Path>) returns (found: array<bool>)
      ensures fresh(found) && found.Length == |paths|
      ensures forall i :: 0 <= i < |paths| ==> found[i] == (paths[i] in files)
    {
      found := new bool[|paths|];
      for i := 0 to |paths|
        invariant forall j :: 0 <= j < i ==> found[j] == (paths[j] in files)
      {
        found[i] := paths[i] in files;
      }
    }

    /** Storing a batch into absent paths and loading it back returns the buffers; where a path is
        named twice, the first buffer. */
    method StoreThenLoad(tmps: seq<Path>, dests: seq<Path>, srcs: seq<Block>, dsts: seq<array<Byte>>)
      returns (stored: StoreResult, loaded: LoadResult)
      requires |tmps| == |dests| == |srcs| == |dsts|
      requires forall i :: 0 <= i < |dests| ==> dests[i] !in files
      requires forall i, j :: 0 <= i < j < |dsts| ==> dsts[i] != dsts[j]
      requires forall i :: 0 <= i < |dests| ==> dsts[i].Length == |srcs[First(dests, dests[i])]|
      modifies this, set d | d in dsts
      ensures stored.Stored? && loaded.Loaded? ==>
        forall i :: 0 <= i < |dests| ==> dsts[i][..] == srcs[First(dests, dests[i])]
      // without a failing call, and with temporary names of their own, both succeed
      ensures errors == old(errors) && OwnTemporaries(old(files), tmps, dests) ==> stored.Stored? && loaded.Loaded?
    {
      ghost var before := files;
      ghost var left;
      stored, left := BatchStore(tmps, dests, srcs);
      if errors == old(errors) && OwnTemporaries(before, tmps, dests) {
        forall k | 0 <= k < |tmps|
          ensures !Blocked(before, tmps, dests, srcs, k)
        {
          NeverBlocked(before, tmps, dests, srcs, k);
        }
      }
      forall i | 0 <= i < |dests|
        ensures stored.Stored? ==> dests[i] in files && files[dests[i]] == srcs[First(dests, dests[i])]
      {
        FirstBufferWins(before, dests, srcs, dests[i]);
      }
      loaded := BatchLoad(dests, dsts);
      assert stored.Stored? && loaded.Loaded? ==> forall i :: 0 <= i < |dests| ==> LastUse(dsts, i, |dests|);
    }
  }

  /** The store at index k finds its destination absent and its temporary name taken. */
  ghost predicate Blocked(files: map<Path, Block>, tmps: seq<Path>, dests: seq<Path>, srcs: seq<Block>, k: nat)
    requires k < |tmps| == |dests| == |srcs|
  {
    var before := StoreAll(files, dests[..k], srcs[..k]);
    dests[k] !in before && tmps[k] in before
  }

  /** The temporary names are free and are not destinations. */
  ghost predicate OwnTemporaries(files: map<Path, Block>, tmps: seq<Path>, dests: seq<Path>) {
    forall k :: 0 <= k < |tmps| ==> tmps[k] !in files && tmps[k] !in dests
  }

  lemma NeverBlocked(files: map<Path, Block>, tmps: seq<Path>, dests: seq<Path>, srcs: seq<Block>, k: nat)
    requires k < |tmps| == |dests| == |srcs| && OwnTemporaries(files, tmps, dests)
    ensures !Blocked(files, tmps, dests, srcs, k)
  {
    FirstBufferWins(files, dests[..k], srcs[..k], tmps[k]);
    assert forall p :: p in dests[..k] ==> p in dests;
  }

  /** A load that reports an error reports the one call that failed, or else that the file is missing or
      short; a short file is reported also if its removal fails. */
  ghost predicate Blames(err: int, before: seq<int>, after: seq<int>, short: bool) {
    || after == before
    || (err > 0 && after == before + [err])
    || (err == EIO && short && |after| == |before| + 1 && before <= after)
  }

  /** What a load returns when no call fails. */
  function LoadErrno(files: map<Path, Block>, path: Path, size: nat): int {
    if path !in files then ENOENT else if |files[path]| < size then EIO else 0
  }

  ghost predicate Short(files: map<Path, Block>, path: Path, size: nat) {
    path in files && |files[path]| < size
  }

  /** Buffer i is not used again by a position before `used`. */
  ghost predicate LastUse(dsts: seq<array<Byte>>, i: nat, used: nat)
    requires i < |dsts| && used <= |dsts|
  {
    forall j :: i < j < used ==> dsts[j] != dsts[i]
  }

  /** Buffer j is used by no position before `used`. */
  ghost predicate Unused(dsts: seq<array<Byte>>, j: nat, used: nat)
    requires j < |dsts| && used <= |dsts|
  {
    forall i :: 0 <= i < used ==> dsts[i] != dsts[j]
  }

  /** Buffers 0..k hold their blocks, except one reused by a later position below `used`. */
  ghost predicate LoadedUpTo(files: map<Path, Block>, paths: seq<Path>, dsts: seq<array<Byte>>, k: nat, used: nat)
    requires k <= used <= |paths| == |dsts|
    reads set d | d in dsts
  {
    forall i :: 0 <= i < k ==> LongEnough(files, paths[i], dsts[i]) && (LastUse(dsts, i, used) ==> Holds(files, paths[i], dsts[i]))
  }

  ghost predicate LongEnough(files: map<Path, Block>, path: Path, dst: array<Byte>) {
    path in files && dst.Length <= |files[path]|
  }

  ghost predicate Holds(files: map<Path, Block>, path: Path, dst: array<Byte>)
    reads dst
  {
    LongEnough(files, path, dst) && dst[..] == files[path][..dst.Length]
  }

  /** The environment's answer to a call: 0, or an errno. */
  method AnyErrno() returns (err: int)
    ensures err >= 0
  {
    err := *;
    if err < 0 {
      err := 0;
    }
  }

  method AnyLength(max: nat) returns (n: nat)
    ensures n <= max
  {
    var x: int := *;
    n := if 0 <= x <= max then x else max;
  }
}
