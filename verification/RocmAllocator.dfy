/** The ROCm allocator over the driver: map with rollback, unmap, and the malloc, free, sleep and
    wake protocol that keeps a sleeping allocation's address as an empty placeholder. */
module RocmAllocator {
  import opened ChunkPlan
  import opened RocmDriver

  const ERROR_NOT_SUPPORTED := 801

  // ---- what an allocation holds ----

  predicate AllPositive(sizes: seq<nat>) {
    forall i :: 0 <= i < |sizes| ==> sizes[i] > 0
  }

  /** The mappings of the first i chunks laid end to end from `base`. */
  function TileMap(base: Addr, sizes: seq<nat>, handles: seq<Handle>, i: nat): map<Addr, Mapping>
    requires i <= |sizes| && i <= |handles|
  {
    if i == 0 then map[]
    else TileMap(base, sizes, handles, i - 1)[base + Offset(sizes, i - 1) := Mapping(sizes[i - 1], handles[i - 1])]
  }

  lemma TileMapNext(base: Addr, sizes: seq<nat>, handles: seq<Handle>, i: nat)
    requires i < |sizes| && i < |handles|
    ensures TileMap(base, sizes, handles, i + 1)
      == TileMap(base, sizes, handles, i)[base + Offset(sizes, i) := Mapping(sizes[i], handles[i])]
  {
  }

  ghost function Elems(s: seq<Handle>): set<Handle> {
    set h | h in s
  }

  lemma ElemsSnoc(s: seq<Handle>, h: Handle)
    ensures Elems(s + [h]) == Elems(s) + {h}
  {
  }

  ghost predicate Distinct(s: seq<Handle>) {
    forall i, j :: 0 <= i < j < |s| ==> s[i] != s[j]
  }

  lemma {:induction false} OffsetsIncrease(sizes: seq<nat>, i: nat, j: nat)
    requires AllPositive(sizes) && i < j <= |sizes|
    ensures Offset(sizes, i) + sizes[i] <= Offset(sizes, j)
    decreases j
  {
    OffsetStep(sizes, j - 1);
    if i < j - 1 {
      OffsetsIncrease(sizes, i, j - 1);
    }
  }

  /** The tiles are exactly the chunk starts, all inside the region. */
  lemma {:induction false} TileKeys(base: Addr, sizes: seq<nat>, handles: seq<Handle>, i: nat)
    requires AllPositive(sizes) && i <= |sizes| == |handles|
    ensures forall m :: m in TileMap(base, sizes, handles, i) ==> base <= m < base + Offset(sizes, i)
    ensures forall j: nat :: j < i ==>
      && base + Offset(sizes, j) in TileMap(base, sizes, handles, i)
      && TileMap(base, sizes, handles, i)[base + Offset(sizes, j)] == Mapping(sizes[j], handles[j])
  {
    if i > 0 {
      TileKeys(base, sizes, handles, i - 1);
      OffsetStep(sizes, i - 1);
      TileMapNext(base, sizes, handles, i - 1);
      forall j: nat | j < i
        ensures base + Offset(sizes, j) in TileMap(base, sizes, handles, i)
        ensures TileMap(base, sizes, handles, i)[base + Offset(sizes, j)] == Mapping(sizes[j], handles[j])
      {
        if j < i - 1 {
          OffsetsIncrease(sizes, j, i - 1);
        }
      }
    }
  }

  lemma {:induction false} TileIndex(base: Addr, sizes: seq<nat>, handles: seq<Handle>, i: nat, m: Addr) returns (j: nat)
    requires i <= |sizes| == |handles| && m in TileMap(base, sizes, handles, i)
    ensures j < i && m == base + Offset(sizes, j)
  {
    if m == base + Offset(sizes, i - 1) {
      j := i - 1;
    } else {
      j := TileIndex(base, sizes, handles, i - 1, m);
    }
  }

  /** How a create-and-map call ended: everything mapped; undone after a failed create or map
      (`clean` when no call of the clean-up failed); or mapped, but access or zeroing failed. */
  datatype Outcome = Mapped | RolledBack(clean: bool) | Unfinished

  /** Two mapping tables have no address in common. */
  ghost predicate Apart(ms: map<Addr, Mapping>, ms': map<Addr, Mapping>) {
    forall m :: m in ms ==> m !in ms'
  }

  /** Two mapping tables agree outside a range. */
  ghost predicate SameOutside(ms: map<Addr, Mapping>, ms': map<Addr, Mapping>, base: Addr, size: nat) {
    forall m :: !(base <= m < base + size) ==>
      (m in ms <==> m in ms') && (m in ms ==> ms[m] == ms'[m])
  }

  // ---- what is behind the tiles ----

  /** Each handle is of its chunk's size. */
  ghost predicate Sized(memory: Memory, sizes: seq<nat>, handles: seq<Handle>) {
    |handles| == |sizes| &&
      forall i :: 0 <= i < |sizes| ==> handles[i] in memory.sizes && memory.sizes[handles[i]] == sizes[i]
  }

  /** The device can read and write every tile, and its handle is of its size. */
  ghost predicate Usable(memory: Memory, base: Addr, sizes: seq<nat>, handles: seq<Handle>) {
    Sized(memory, sizes, handles) && forall i: nat :: i < |sizes| ==> base + Offset(sizes, i) in memory.accessible
  }

  ghost predicate Zeroed(memory: Memory, base: Addr, sizes: seq<nat>) {
    forall i: nat :: i < |sizes| ==> base + Offset(sizes, i) in memory.zeroed
  }

  /** Handles keep their size, and mappings their access. */
  ghost predicate Keeps(before: Memory, after: Memory, handles: set<Handle>, mappings: map<Addr, Mapping>) {
    && (forall h :: h in handles && h in before.sizes ==> h in after.sizes && after.sizes[h] == before.sizes[h])
    && forall m :: m in mappings && m in before.accessible ==> m in after.accessible
  }

  /** The same, with no new handle. */
  ghost predicate MapsOnly(before: Memory, after: Memory, mappings: map<Addr, Mapping>) {
    after.sizes == before.sizes && forall m :: m in mappings && m in before.accessible ==> m in after.accessible
  }

  /** The tiles lie inside the range they fill. */
  lemma TilesSpanned(mappings: map<Addr, Mapping>, base: Addr, sizes: seq<nat>, handles: seq<Handle>)
    requires |handles| == |sizes| && AllPositive(sizes)
    requires forall m :: m in TileMap(base, sizes, handles, |sizes|) ==>
      m in mappings && mappings[m] == TileMap(base, sizes, handles, |sizes|)[m]
    ensures forall i: nat :: i < |sizes| ==> base + Offset(sizes, i) in Spanned(mappings, base, Sum(sizes))
  {
    TileKeys(base, sizes, handles, |sizes|);
    forall i: nat | i < |sizes|
      ensures base + Offset(sizes, i) in Spanned(mappings, base, Sum(sizes))
    {
      OffsetStep(sizes, i);
      RegionCovers(sizes, i + 1);
    }
  }

  class Allocator {
    const driver: Driver
    /** The global error code: set by a failing checked call, cleared only by sleep and wake. */
    var errorCode: int

    constructor (driver: Driver)
      ensures this.driver == driver && errorCode == 0
    {
      this.driver := driver;
      errorCode := 0;
    }

    /** reserve_rocm_address: when the reservation with an explicit alignment fails, it lets the driver
        choose and accepts the range only if it happens to be aligned; a rejected range is freed
        again (`stray` tells that even this failed). */
    method ReserveAddress(size: nat, alignment: nat, hint: Addr) returns (status: int, addr: Addr, ghost stray: bool)
      requires driver.Valid()
      modifies driver`reservations, driver`failures, driver`firstError, driver`wish
      ensures driver.Valid() && status >= 0 && driver.wish == hint
      ensures status == 0 ==>
        && addr > 0 && size > 0 && addr !in old(driver.reservations) && !stray
        && (alignment != 0 ==> addr % alignment == 0)
        && (forall a :: a in old(driver.reservations) ==> Disjoint(addr, size, a, old(driver.reservations)[a]))
        && driver.reservations == old(driver.reservations)[addr := size]
      ensures status != 0 ==> driver.reservations == (if stray then old(driver.reservations)[addr := size] else old(driver.reservations))
      // one failing call is not the end: without alignment the reservation is tried again
      ensures status != 0 && alignment != 0 && driver.failures == old(driver.failures) + 1 ==>
        status == ERROR_NOT_SUPPORTED && addr % alignment != 0
      ensures stray ==> alignment != 0 && addr !in old(driver.reservations) && driver.failures == old(driver.failures) + 2
      ensures driver.failures >= old(driver.failures) && (status != 0 ==> driver.failures > old(driver.failures))
    {
      stray := false;
      status, addr := driver.AddressReserve(size, alignment, hint);
      if status == 0 || alignment == 0 {
        return;
      }
      status, addr := driver.AddressReserve(size, 0, hint);
      if status != 0 || addr % alignment == 0 {
        return;
      }
      status := driver.AddressFree(addr, size);
      stray := status != 0;
      assert !stray ==> driver.reservations == old(driver.reservations);
      status := ERROR_NOT_SUPPORTED;
    }

    /** The create loop, with its clean-up. The check after each call looks at the error code, so a
        pending error makes it stop after the first chunk, whose handle it does not release. */
    method CreateHandles(sizes: seq<nat>, cells: array<Handle>) returns (ghost clean: bool)
      requires driver.Valid() && errorCode >= 0 && cells.Length == |sizes|
      modifies this`errorCode, driver`handles, driver`nextHandle, driver`failures, driver`firstError, driver`memory, cells
      ensures driver.Valid() && errorCode >= 0 && driver.failures >= old(driver.failures)
      ensures Keeps(old(driver.memory), driver.memory, old(driver.handles), driver.mappings)
      ensures errorCode == 0 ==> Sized(driver.memory, sizes, cells[..])
      ensures old(driver.firstError) == 0 ==> errorCode == First(driver.firstError, old(errorCode))
      ensures errorCode == 0 ==> old(errorCode) == 0 && driver.failures == old(driver.failures)
      ensures errorCode == 0 ==>
        && driver.handles == old(driver.handles) + Elems(cells[..])
        && Elems(cells[..]) !! old(driver.handles) && Distinct(cells[..])
      ensures errorCode != 0 ==> old(driver.handles) <= driver.handles && (clean <==> driver.handles == old(driver.handles))
      ensures errorCode != 0 && old(errorCode) == 0 ==>
        driver.failures > old(driver.failures) && (clean <==> driver.failures == old(driver.failures) + 1)
      ensures old(errorCode) != 0 && sizes != [] ==> (clean <==> driver.failures > old(driver.failures))
    {
      clean := true;
      ghost var before := driver.handles;
      for i := 0 to |sizes|
        invariant driver.Valid() && clean && driver.failures == old(driver.failures) && errorCode == old(errorCode)
        invariant i > 0 ==> errorCode == 0
        invariant driver.handles == before + Elems(cells[..i])
        invariant Elems(cells[..i]) !! before && Distinct(cells[..i])
        invariant driver.firstError == old(driver.firstError)
        invariant Keeps(old(driver.memory), driver.memory, before, driver.mappings)
        invariant Sized(driver.memory, sizes[..i], cells[..i])
      {
        ghost var made := cells[..i];
        var status, handle := driver.MemCreate(sizes[i]);
        if status != 0 {
          errorCode := status;
        }
        if errorCode != 0 {
          clean := StopCreating(cells[..i], handle, status, before);
          return;
        }
        cells[i] := handle;
        assert cells[..i + 1] == made + [handle] && sizes[..i + 1] == sizes[..i] + [sizes[i]];
        assert forall j :: 0 <= j < i ==> made[j] in Elems(made);
        ElemsSnoc(made, handle);
      }
      assert cells[..|sizes|] == cells[..] && sizes[..|sizes|] == sizes;
    }

    /** The clean-up after a failed create: the handles made before are released; if the call itself had
        succeeded, its handle stays. */
    method StopCreating(made: seq<Handle>, handle: Handle, status: int, ghost before: set<Handle>) returns (ghost clean: bool)
      requires driver.Valid() && Elems(made) !! before && Distinct(made) && (status == 0 ==> made == [])
      requires driver.handles == before + Elems(made) + (if status == 0 then {handle} else {})
      requires status == 0 ==> handle !in before
      modifies driver`handles, driver`failures, driver`firstError
      ensures driver.Valid() && before <= driver.handles && driver.failures >= old(driver.failures)
      ensures clean <==> driver.handles == before
      ensures clean <==> status != 0 && driver.failures == old(driver.failures)
      ensures made == [] ==> driver.failures == old(driver.failures)
      ensures old(driver.firstError) != 0 || made == [] ==> driver.firstError == old(driver.firstError)
    {
      var first, statuses := ReleaseEach(made);
      clean := status != 0 && first == 0;
      NoFailures(statuses);
      if status != 0 {
        ReleaseUndoes(made, statuses, before, driver.handles);
      }
    }

    /** Releases every handle, whatever happens to the others, and reports the first failure. The
        clean-up loops use it and ignore the report. */
    method ReleaseEach(handles: seq<Handle>) returns (firstError: int, ghost statuses: seq<int>)
      requires driver.Valid()
      modifies driver`handles, driver`failures, driver`firstError
      ensures driver.Valid()
      ensures |statuses| == |handles| && firstError == FirstError(statuses) && firstError >= 0
      ensures driver.failures == old(driver.failures) + Failures(statuses)
      ensures driver.firstError == First(old(driver.firstError), firstError)
      ensures forall h :: h in driver.handles <==> h in old(driver.handles) && !Released(handles, statuses, h)
    {
      firstError, statuses := 0, [];
      for i := 0 to |handles|
        invariant driver.Valid() && |statuses| == i && firstError == FirstError(statuses) && firstError >= 0
        invariant driver.failures == old(driver.failures) + Failures(statuses)
        invariant driver.firstError == First(old(driver.firstError), firstError)
        invariant forall h :: h in driver.handles <==> h in old(driver.handles) && !Released(handles, statuses, h)
      {
        var status := driver.MemRelease(handles[i]);
        if status != 0 && firstError == 0 {
          firstError := status;
        }
        FirstErrorSnoc(statuses, status);
        FailuresConcat(statuses, [status]);
        ghost var was := statuses;
        statuses := statuses + [status];
        assert forall h :: Released(handles, statuses, h) <==>
          Released(handles, was, h) || (status == 0 && h == handles[i]);
      }
    }

    /** Unmaps the first `count` chunks, whatever happens to the others, and reports the first
        failure. */
    method UnmapEach(base: Addr, sizes: seq<nat>, count: nat) returns (firstError: int, ghost statuses: seq<int>)
      requires driver.Valid() && count <= |sizes|
      modifies driver`mappings, driver`failures, driver`firstError
      ensures driver.Valid()
      ensures |statuses| == count && firstError == FirstError(statuses) && firstError >= 0
      ensures driver.failures == old(driver.failures) + Failures(statuses)
      ensures driver.firstError == First(old(driver.firstError), firstError)
      ensures Left(old(driver.mappings), driver.mappings, base, sizes, statuses)
    {
      firstError, statuses := 0, [];
      var allocatedSize := 0;
      for i := 0 to count
        invariant driver.Valid() && |statuses| == i && firstError == FirstError(statuses) && firstError >= 0
        invariant driver.failures == old(driver.failures) + Failures(statuses)
        invariant driver.firstError == First(old(driver.firstError), firstError)
        invariant allocatedSize == Offset(sizes, i)
        invariant Left(old(driver.mappings), driver.mappings, base, sizes, statuses)
      {
        OffsetStep(sizes, i);
        var status := UnmapNext(base, allocatedSize, sizes, i, old(driver.mappings), statuses);
        if status != 0 && firstError == 0 {
          firstError := status;
        }
        FirstErrorSnoc(statuses, status);
        FailuresConcat(statuses, [status]);
        statuses := statuses + [status];
        allocatedSize := allocatedSize + sizes[i];
      }
    }

    method UnmapNext(base: Addr, offset: nat, sizes: seq<nat>, i: nat, ghost before: map<Addr, Mapping>, ghost statuses: seq<int>)
      returns (status: int)
      requires driver.Valid() && |statuses| == i < |sizes| && offset == Offset(sizes, i)
      requires Left(before, driver.mappings, base, sizes, statuses)
      modifies driver`mappings, driver`failures, driver`firstError
      ensures driver.Valid() && status >= 0
      ensures driver.failures == old(driver.failures) + if status != 0 then 1 else 0
      ensures driver.firstError == First(old(driver.firstError), status)
      ensures Left(before, driver.mappings, base, sizes, statuses + [status])
    {
      ghost var was := driver.mappings;
      status := driver.MemUnmap(base + offset, sizes[i]);
      LeftStep(before, was, driver.mappings, base, sizes, statuses, status);
    }

    /** The map loop, with its clean-up of the chunks mapped before the failing one. */
    method MapChunks(base: Addr, sizes: seq<nat>, handles: seq<Handle>) returns (ghost clean: bool)
      requires driver.Valid() && errorCode == 0 && AllPositive(sizes) && |handles| == |sizes|
      modifies this`errorCode, driver`mappings, driver`failures, driver`firstError, driver`memory
      ensures driver.Valid() && errorCode >= 0
      ensures MapsOnly(old(driver.memory), driver.memory, old(driver.mappings))
      ensures old(driver.firstError) == 0 ==> errorCode == driver.firstError
      ensures SameOutside(old(driver.mappings), driver.mappings, base, Sum(sizes))
      ensures errorCode == 0 ==>
        && Apart(TileMap(base, sizes, handles, |sizes|), old(driver.mappings))
        && driver.mappings == old(driver.mappings) + TileMap(base, sizes, handles, |sizes|)
      ensures errorCode != 0 ==> (clean <==> driver.mappings == old(driver.mappings))
      ensures errorCode == 0 ==> driver.failures == old(driver.failures)
      ensures errorCode != 0 ==> driver.failures > old(driver.failures)
      ensures errorCode != 0 ==> (clean <==> driver.failures == old(driver.failures) + 1)
    {
      clean := true;
      ghost var before := driver.mappings;
      var status, count := MapEach(base, sizes, handles);
      if status != 0 {
        errorCode := status;
        clean := UnmapFirst(base, sizes, handles, count, before);
      } else {
        TilesOutside(before, base, sizes, handles);
      }
    }

    /** Maps chunk after chunk, up to the first call that fails. */
    method MapEach(base: Addr, sizes: seq<nat>, handles: seq<Handle>) returns (status: int, count: nat)
      requires driver.Valid() && |handles| == |sizes|
      modifies driver`mappings, driver`failures, driver`firstError, driver`memory
      ensures driver.Valid() && status >= 0 && count <= |sizes| && (status == 0 ==> count == |sizes|)
      ensures Apart(TileMap(base, sizes, handles, count), old(driver.mappings))
      ensures driver.mappings == old(driver.mappings) + TileMap(base, sizes, handles, count)
      ensures driver.failures == old(driver.failures) + if status != 0 then 1 else 0
      ensures driver.firstError == First(old(driver.firstError), status)
      ensures MapsOnly(old(driver.memory), driver.memory, old(driver.mappings))
    {
      ghost var before, tiles := driver.mappings, TileMap(base, sizes, handles, 0);
      var allocatedSize := 0;
      status, count := 0, 0;
      while count < |sizes|
        invariant driver.Valid() && status == 0 && count <= |sizes|
        invariant driver.failures == old(driver.failures) && driver.firstError == old(driver.firstError)
        invariant allocatedSize == Offset(sizes, count)
        invariant tiles == TileMap(base, sizes, handles, count) && Apart(tiles, before)
        invariant driver.mappings == before + tiles
        invariant MapsOnly(old(driver.memory), driver.memory, before)
      {
        OffsetStep(sizes, count);
        status := MapNext(base + allocatedSize, sizes[count], handles[count], before, tiles);
        if status != 0 {
          return;
        }
        TileMapNext(base, sizes, handles, count);
        tiles := tiles[base + allocatedSize := Mapping(sizes[count], handles[count])];
        allocatedSize, count := allocatedSize + sizes[count], count + 1;
      }
    }

    method MapNext(addr: Addr, size: nat, handle: Handle, ghost before: map<Addr, Mapping>, ghost tiles: map<Addr, Mapping>)
      returns (status: int)
      requires driver.Valid() && driver.mappings == before + tiles && Apart(tiles, before)
      modifies driver`mappings, driver`failures, driver`firstError, driver`memory
      ensures driver.Valid() && status >= 0
      ensures driver.failures == old(driver.failures) + if status != 0 then 1 else 0
      ensures driver.firstError == First(old(driver.firstError), status)
      ensures MapsOnly(old(driver.memory), driver.memory, before)
      ensures status == 0 ==>
        && Apart(tiles[addr := Mapping(size, handle)], before)
        && driver.mappings == before + tiles[addr := Mapping(size, handle)]
      ensures status != 0 ==> driver.mappings == before + tiles
    {
      status := driver.MemMap(addr, size, handle);
      if status == 0 {
        MapMore(before, tiles, addr, Mapping(size, handle));
      }
    }

    /** The clean-up of the first `count` chunks; the status of each unmap is ignored. */
    method UnmapFirst(base: Addr, sizes: seq<nat>, handles: seq<Handle>, count: nat, ghost before: map<Addr, Mapping>)
      returns (ghost clean: bool)
      requires driver.Valid() && AllPositive(sizes) && count <= |sizes| == |handles|
      requires Apart(TileMap(base, sizes, handles, count), before)
      requires driver.mappings == before + TileMap(base, sizes, handles, count)
      modifies driver`mappings, driver`failures, driver`firstError
      ensures driver.Valid() && SameOutside(before, driver.mappings, base, Sum(sizes))
      ensures clean <==> driver.mappings == before
      ensures driver.failures >= old(driver.failures) && (clean <==> driver.failures == old(driver.failures))
      ensures old(driver.firstError) != 0 ==> driver.firstError == old(driver.firstError)
    {
      var firstError, statuses := UnmapEach(base, sizes, count);
      clean := firstError == 0;
      NoFailures(statuses);
      UnmapUndoes(base, sizes, handles, count, statuses, before, driver.mappings);
    }

    /** create_and_map: all or nothing over its create and map phases. A failure of cuMemSetAccess or
        hipMemset returns with everything still mapped. */
    method CreateAndMap(base: Addr, size: nat, sizes: seq<nat>, cells: array<Handle>) returns (ghost outcome: Outcome)
      requires driver.Valid() && errorCode >= 0 && AllPositive(sizes) && cells.Length == |sizes|
      requires Sum(sizes) == size > 0
      modifies this`errorCode, driver`handles, driver`nextHandle, driver`mappings, driver`failures, driver`firstError, driver`memory, cells
      ensures driver.Valid() && errorCode >= 0 && driver.failures >= old(driver.failures)
      ensures errorCode == 0 <==> outcome.Mapped?
      ensures !outcome.RolledBack? ==>
        && driver.handles == old(driver.handles) + Elems(cells[..])
        && Elems(cells[..]) !! old(driver.handles) && Distinct(cells[..])
        && Apart(TileMap(base, sizes, cells[..], |sizes|), old(driver.mappings))
        && driver.mappings == old(driver.mappings) + TileMap(base, sizes, cells[..], |sizes|)
      ensures outcome.RolledBack? ==>
        (outcome.clean <==> driver.handles == old(driver.handles) && driver.mappings == old(driver.mappings))
      ensures Calls(old(errorCode), outcome, old(driver.failures), driver.failures)
      // what is mapped can be used: every tile is accessible, zeroed and backed by a handle of its size
      ensures outcome.Mapped? ==> Usable(driver.memory, base, sizes, cells[..]) && Zeroed(driver.memory, base, sizes)
      ensures Keeps(old(driver.memory), driver.memory, old(driver.handles), old(driver.mappings))
      // the error reported is that of the first call that failed
      ensures errorCode == First(driver.firstError, old(errorCode))
      ensures old(driver.handles) <= driver.handles
      ensures SameOutside(old(driver.mappings), driver.mappings, base, size)
    {
      NotEmpty(sizes);
      driver.firstError := 0;
      ghost var clean := CreateHandles(sizes, cells);
      if errorCode != 0 {
        return RolledBack(clean);
      }
      clean := MapChunks(base, sizes, cells[..]);
      if errorCode != 0 {
        var status, statuses := ReleaseEach(cells[..]);
        NoFailures(statuses);
        ReleaseUndoes(cells[..], statuses, old(driver.handles), driver.handles);
        return RolledBack(clean && FirstError(statuses) == 0);
      }
      TilesSpanned(driver.mappings, base, sizes, cells[..]);
      var status := driver.MemSetAccess(base, size);
      if status == 0 {
        status := driver.Memset(base, 0, size);
      }
      errorCode := status;
      outcome := if status == 0 then Mapped else Unfinished;
    }

    /** unmap_and_release: every chunk is unmapped, then every handle released, whatever happens to
        the others, and the first failure of all these calls is reported. */
    method UnmapAndRelease(base: Addr, sizes: seq<nat>, handles: seq<Handle>)
      returns (ghost unmaps: seq<int>, ghost releases: seq<int>)
      requires driver.Valid() && |handles| == |sizes|
      modifies this`errorCode, driver`handles, driver`mappings, driver`failures, driver`firstError
      ensures driver.Valid()
      ensures |unmaps| == |releases| == |sizes| && FirstError(unmaps + releases) >= 0
      ensures driver.firstError == First(old(driver.firstError), FirstError(unmaps + releases))
      ensures errorCode == (if FirstError(unmaps + releases) != 0 then FirstError(unmaps + releases) else old(errorCode))
      ensures driver.failures == old(driver.failures) + Failures(unmaps + releases)
      ensures Left(old(driver.mappings), driver.mappings, base, sizes, unmaps)
      ensures forall h :: h in driver.handles <==> h in old(driver.handles) && !Released(handles, releases, h)
    {
      var firstError, released;
      firstError, unmaps := UnmapEach(base, sizes, |sizes|);
      released, releases := ReleaseEach(handles);
      FirstErrorConcat(unmaps, releases);
      FailuresConcat(unmaps, releases);
      if firstError == 0 {
        firstError := released;
      }
      if firstError != 0 {
        errorCode := firstError;
      }
    }
  }

  /** Which outcome the failing calls lead to. Without a pending error, a roll-back is clean exactly if
      the call that caused it was the only one that failed. With a pending error nothing is mapped,
      and the roll-back is clean exactly if a call failed: a create that succeeds is never undone. */
  predicate Calls(pending: int, outcome: Outcome, before: nat, after: nat) {
    if pending != 0 then outcome.RolledBack? && (outcome.clean <==> after > before)
    else
      match outcome
      case Mapped => after == before
      case RolledBack(clean) => after > before && (clean <==> after == before + 1)
      case Unfinished => after == before + 1
  }

  lemma NotEmpty(sizes: seq<nat>)
    requires Sum(sizes) > 0
    ensures sizes != []
  {
  }

  /** The first failing status, or 0. */
  function FirstError(statuses: seq<int>): int {
    if statuses == [] then 0 else if statuses[0] != 0 then statuses[0] else FirstError(statuses[1..])
  }

  /** How many statuses are failures. */
  function Failures(statuses: seq<int>): nat {
    if statuses == [] then 0 else (if statuses[0] != 0 then 1 else 0) + Failures(statuses[1..])
  }

  lemma {:induction false} FailuresConcat(s: seq<int>, t: seq<int>)
    ensures Failures(s + t) == Failures(s) + Failures(t)
  {
    if s == [] {
      assert s + t == t;
    } else {
      assert (s + t)[1..] == s[1..] + t;
      FailuresConcat(s[1..], t);
    }
  }

  lemma {:induction false} NoFailures(statuses: seq<int>)
    ensures Failures(statuses) == 0 <==> FirstError(statuses) == 0
  {
    if statuses != [] {
      NoFailures(statuses[1..]);
    }
  }

  lemma {:induction false} FirstErrorSnoc(statuses: seq<int>, s: int)
    ensures FirstError(statuses + [s]) == if FirstError(statuses) != 0 then FirstError(statuses) else s
  {
    if statuses != [] {
      assert (statuses + [s])[1..] == statuses[1..] + [s];
      FirstErrorSnoc(statuses[1..], s);
    }
  }

  /** The chunk at m was unmapped. */
  ghost predicate Undone(base: Addr, sizes: seq<nat>, statuses: seq<int>, m: Addr) {
    exists i: nat :: i < |sizes| && i < |statuses| && statuses[i] == 0 && m == base + Offset(sizes, i)
  }

  ghost predicate Released(handles: seq<Handle>, statuses: seq<int>, h: Handle) {
    exists i: nat :: i < |handles| && i < |statuses| && statuses[i] == 0 && h == handles[i]
  }

  lemma {:induction false} FirstErrorConcat(s: seq<int>, t: seq<int>)
    ensures FirstError(s + t) == if FirstError(s) != 0 then FirstError(s) else FirstError(t)
  {
    if s == [] {
      assert s + t == t;
    } else {
      assert (s + t)[1..] == s[1..] + t;
      FirstErrorConcat(s[1..], t);
    }
  }

  lemma {:induction false} NoError(statuses: seq<int>, i: nat)
    requires FirstError(statuses) == 0 && i < |statuses|
    ensures statuses[i] == 0
  {
    if i > 0 {
      NoError(statuses[1..], i - 1);
    }
  }

  lemma {:induction false} SomeError(statuses: seq<int>) returns (i: nat)
    requires FirstError(statuses) != 0
    ensures i < |statuses| && statuses[i] != 0
  {
    if statuses[0] != 0 {
      i := 0;
    } else {
      i := SomeError(statuses[1..]);
      i := i + 1;
    }
  }

  /** What unmapping leaves: every mapping but those whose unmap succeeded. */
  ghost predicate Left(ms: map<Addr, Mapping>, ms': map<Addr, Mapping>, base: Addr, sizes: seq<nat>, statuses: seq<int>) {
    && (forall m :: m in ms' <==> m in ms && !Undone(base, sizes, statuses, m))
    && (forall m :: m in ms' ==> ms'[m] == ms[m])
  }

  lemma LeftStep(ms: map<Addr, Mapping>, ms': map<Addr, Mapping>, ms'': map<Addr, Mapping>,
                 base: Addr, sizes: seq<nat>, statuses: seq<int>, status: int)
    requires |statuses| < |sizes| && Left(ms, ms', base, sizes, statuses)
    requires ms'' == if status == 0 then ms' - {base + Offset(sizes, |statuses|)} else ms'
    ensures Left(ms, ms'', base, sizes, statuses + [status])
  {
    var i, after := |statuses|, statuses + [status];
    forall m
      ensures Undone(base, sizes, after, m) <==>
        Undone(base, sizes, statuses, m) || (status == 0 && m == base + Offset(sizes, i))
    {
      if status == 0 && m == base + Offset(sizes, i) {
        assert after[i] == 0;
      }
      if Undone(base, sizes, statuses, m) {
        var j: nat :| j < |sizes| && j < |statuses| && statuses[j] == 0 && m == base + Offset(sizes, j);
        assert after[j] == 0;
      }
    }
  }

  /** Releasing handles only takes away those handles; if no release fails, all of them. */
  lemma ReleaseUndoes(made: seq<Handle>, statuses: seq<int>, before: set<Handle>, after: set<Handle>)
    requires |statuses| == |made| && Elems(made) !! before && Distinct(made)
    requires forall h :: h in after <==> h in before + Elems(made) && !Released(made, statuses, h)
    ensures before <= after
    ensures FirstError(statuses) == 0 <==> after == before
  {
    forall h | h in before
      ensures h in after
    {
      assert h !in Elems(made);
    }
    if FirstError(statuses) == 0 {
      forall i: nat | i < |made|
        ensures Released(made, statuses, made[i])
      {
        NoError(statuses, i);
      }
    } else {
      var i := SomeError(statuses);
      assert made[i] in Elems(made) && !Released(made, statuses, made[i]);
    }
  }

  /** Unmapping the first chunks only changes the region; if no unmap fails, it takes away exactly
      what mapping them had added. */
  lemma UnmapUndoes(base: Addr, sizes: seq<nat>, handles: seq<Handle>, count: nat, statuses: seq<int>,
                    before: map<Addr, Mapping>, after: map<Addr, Mapping>)
    requires AllPositive(sizes) && count <= |sizes| == |handles| && |statuses| == count
    requires Apart(TileMap(base, sizes, handles, count), before)
    requires Left(before + TileMap(base, sizes, handles, count), after, base, sizes, statuses)
    ensures SameOutside(before, after, base, Sum(sizes))
    ensures FirstError(statuses) == 0 <==> after == before
  {
    var tiles := TileMap(base, sizes, handles, count);
    UndoneIsTile(base, sizes, handles, count, statuses);
    if FirstError(statuses) == 0 {
      forall m | m in tiles
        ensures Undone(base, sizes, statuses, m)
      {
        var j := TileIndex(base, sizes, handles, count, m);
        NoError(statuses, j);
      }
      assert forall m :: m in after <==> m in before;
      assert after == before;
    } else {
      var i := SomeError(statuses);
      StillMapped(base, sizes, handles, count, statuses, i);
    }
  }

  /** A chunk whose unmap failed is still mapped. */
  lemma StillMapped(base: Addr, sizes: seq<nat>, handles: seq<Handle>, count: nat, statuses: seq<int>, i: nat)
    requires AllPositive(sizes) && count <= |sizes| == |handles| && |statuses| == count && i < count && statuses[i] != 0
    ensures base + Offset(sizes, i) in TileMap(base, sizes, handles, count)
    ensures !Undone(base, sizes, statuses, base + Offset(sizes, i))
  {
    TileKeys(base, sizes, handles, count);
    forall k: nat | k < count && Offset(sizes, k) == Offset(sizes, i)
      ensures k == i
    {
      if k < i {
        OffsetsIncrease(sizes, k, i);
      } else if i < k {
        OffsetsIncrease(sizes, i, k);
      }
    }
  }

  lemma UndoneIsTile(base: Addr, sizes: seq<nat>, handles: seq<Handle>, count: nat, statuses: seq<int>)
    requires AllPositive(sizes) && count <= |sizes| == |handles| && |statuses| == count
    ensures forall m :: m in TileMap(base, sizes, handles, count) ==> base <= m < base + Sum(sizes)
    ensures forall m: Addr :: Undone(base, sizes, statuses, m) ==>
      m in TileMap(base, sizes, handles, count) && base <= m < base + Sum(sizes)
  {
    TileKeys(base, sizes, handles, count);
    RegionCovers(sizes, count);
  }

  lemma MapMore(before: map<Addr, Mapping>, tiles: map<Addr, Mapping>, addr: Addr, mapping: Mapping)
    requires addr !in before + tiles && Apart(tiles, before)
    ensures (before + tiles)[addr := mapping] == before + tiles[addr := mapping]
    ensures Apart(tiles[addr := mapping], before)
  {
  }

  lemma TilesOutside(before: map<Addr, Mapping>, base: Addr, sizes: seq<nat>, handles: seq<Handle>)
    requires AllPositive(sizes) && |sizes| == |handles|
    ensures SameOutside(before, before + TileMap(base, sizes, handles, |sizes|), base, Sum(sizes))
  {
    TileKeys(base, sizes, handles, |sizes|);
    RegionCovers(sizes, |sizes|);
  }

  lemma RegionCovers(sizes: seq<nat>, count: nat)
    requires AllPositive(sizes) && count <= |sizes|
    ensures Offset(sizes, count) <= Sum(sizes)
    ensures forall j: nat :: j < |sizes| ==> Offset(sizes, j) < Sum(sizes)
  {
    assert sizes[..|sizes|] == sizes;
    forall j: nat | j < |sizes|
      ensures Offset(sizes, j) < Sum(sizes)
    {
      OffsetsIncrease(sizes, j, |sizes|);
    }
  }
}
