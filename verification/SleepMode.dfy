/** Malloc, free, sleep and wake: what every live allocation keeps, over any sequence of calls. */
module SleepMode {
  import opened ChunkPlan
  import opened RocmDriver
  import opened RocmAllocator

  /** The record of one allocation: its aligned size, its chunk sizes, the handles in its cells, and
      whether its memory is given up. */
  datatype Alloc = Alloc(size: nat, sizes: seq<nat>, handles: seq<Handle>, asleep: bool)
  {
    ghost predicate Shaped() {
      size > 0 && |sizes| == |handles| && AllPositive(sizes) && Sum(sizes) == size
    }

    ghost function Tiles(base: Addr): map<Addr, Mapping>
      requires Shaped()
    {
      if asleep then map[] else TileMap(base, sizes, handles, |sizes|)
    }

    ghost function Physical(): set<Handle> {
      if asleep then {} else Elems(handles)
    }
  }

  /** The allocation follows the plan for a request of `size` bytes. */
  ghost predicate Planned(a: Alloc, size: nat, base: nat, granularity: nat)
    requires granularity > 0
  {
    var chunk := RoundUp(base, granularity);
    && a.size == RoundUp(size, granularity) >= size
    && chunk > 0 && a.sizes == Chunks(a.size, chunk) && Tiles(a.sizes, a.size, chunk, granularity)
  }

  /** The driver's tables. */
  datatype Tables = Tables(reservations: map<Addr, nat>, handles: set<Handle>, mappings: map<Addr, Mapping>)

  /** An allocation's range is reserved at its base, the mappings inside are exactly its tiles, and
      its handles are live and distinct. A sleeping one has no tile and no handle. */
  ghost predicate Held(d: Tables, base: Addr, a: Alloc) {
    && a.Shaped()
    && base in d.reservations && d.reservations[base] == a.size
    && Inside(d.mappings, base, a.size) == a.Tiles(base)
    && a.Physical() <= d.handles
    && (!a.asleep ==> Distinct(a.handles))
  }

  ghost predicate AllHeld(d: Tables, table: map<Addr, Alloc>, live: set<Addr>) {
    && AllDisjoint(d.reservations)
    && (forall b :: b in live ==> b in table && Held(d, b, table[b]))
    && (forall b, c :: b in live && c in live && b != c ==> table[b].Physical() !! table[c].Physical())
  }

  ghost predicate Owned(table: map<Addr, Alloc>, live: set<Addr>, h: Handle) {
    exists b :: b in live && b in table && h in table[b].Physical()
  }

  ghost predicate Within(table: map<Addr, Alloc>, live: set<Addr>, m: Addr) {
    exists b :: b in live && b in table && b <= m < b + table[b].size
  }

  /** Every handle and every mapping belongs to a live allocation. */
  ghost predicate Accounted(d: Tables, table: map<Addr, Alloc>, live: set<Addr>) {
    && (forall h :: h in d.handles ==> Owned(table, live, h))
    && (forall m :: m in d.mappings ==> Within(table, live, m))
  }

  /** Live ranges are disjoint. */
  lemma LiveRangesDisjoint(d: Tables, table: map<Addr, Alloc>, live: set<Addr>, b: Addr, c: Addr)
    requires AllHeld(d, table, live) && b in live && c in live && b != c
    ensures Disjoint(b, table[b].size, c, table[c].size)
  {
    assert Held(d, b, table[b]) && Held(d, c, table[c]);
  }

  /** What happens inside one range leaves the allocations elsewhere as they are. */
  lemma OthersHeld(d: Tables, d': Tables, base: Addr, size: nat, c: Addr, a: Alloc)
    requires Held(d, c, a) && Disjoint(base, size, c, a.size)
    requires SameOutside(d.mappings, d'.mappings, base, size)
    requires c in d'.reservations && d'.reservations[c] == a.size
    requires a.Physical() <= d'.handles
    ensures Held(d', c, a)
  {
    assert Inside(d'.mappings, c, a.size) == Inside(d.mappings, c, a.size);
  }

  /** One allocation changes, the others stay. */
  lemma Replace(d: Tables, d': Tables, table: map<Addr, Alloc>, live: set<Addr>, base: Addr, a: Alloc)
    requires AllHeld(d, table, live) && AllDisjoint(d'.reservations)
    requires Held(d', base, a)
    requires SameOutside(d.mappings, d'.mappings, base, a.size)
    requires forall c :: c in live && c != base ==>
      && c in d'.reservations && d'.reservations[c] == table[c].size
      && table[c].Physical() <= d'.handles && table[c].Physical() !! a.Physical()
    ensures AllHeld(d', table[base := a], live + {base})
  {
    var table', live' := table[base := a], live + {base};
    forall c | c in live'
      ensures Held(d', c, table'[c])
    {
      if c != base {
        assert Disjoint(base, a.size, c, d'.reservations[c]);
        OthersHeld(d, d', base, a.size, c, table[c]);
      }
    }
    forall b, c | b in live' && c in live' && b != c
      ensures table'[b].Physical() !! table'[c].Physical()
    {
      assert b != base && c != base ==> table[b].Physical() !! table[c].Physical();
    }
  }

  /** Whatever happens outside the ranges of some live allocations, those stay held. */
  lemma Keep(d: Tables, d': Tables, table: map<Addr, Alloc>, table': map<Addr, Alloc>, live: set<Addr>, live': set<Addr>,
             base: Addr, size: nat)
    requires AllHeld(d, table, live) && AllDisjoint(d'.reservations) && live' <= live
    requires SameOutside(d.mappings, d'.mappings, base, size)
    requires forall c :: c in live' ==>
      && c in table' && table'[c] == table[c]
      && c in d'.reservations && d'.reservations[c] == table[c].size
      && table[c].Physical() <= d'.handles
      && Disjoint(base, size, c, table[c].size)
    ensures AllHeld(d', table', live')
  {
    forall c | c in live'
      ensures c in table' && Held(d', c, table'[c])
    {
      OthersHeld(d, d', base, size, c, table[c]);
    }
    forall b, c | b in live' && c in live' && b != c
      ensures table'[b].Physical() !! table'[c].Physical()
    {
      assert table[b].Physical() !! table[c].Physical();
    }
  }

  lemma SameOwners(table: map<Addr, Alloc>, table': map<Addr, Alloc>, live: set<Addr>, live': set<Addr>)
    requires live <= live'
    requires forall c :: c in live ==> c in table && c in table' && table'[c] == table[c]
    ensures forall h: Handle :: Owned(table, live, h) ==> Owned(table', live', h)
    ensures forall m: Addr :: Within(table, live, m) ==> Within(table', live', m)
  {
    forall h: Handle | Owned(table, live, h)
      ensures Owned(table', live', h)
    {
      var b :| b in live && b in table && h in table[b].Physical();
      assert b in live' && h in table'[b].Physical();
    }
    forall m: Addr | Within(table, live, m)
      ensures Within(table', live', m)
    {
      var b :| b in live && b in table && b <= m < b + table[b].size;
      assert b in live' && b <= m < b + table'[b].size;
    }
  }

  /** A change that leaves handles, mappings and the reservations of live allocations alone. */
  lemma KeepTables(d: Tables, d': Tables, table: map<Addr, Alloc>, table': map<Addr, Alloc>, live: set<Addr>)
    requires AllHeld(d, table, live) && AllDisjoint(d'.reservations)
    requires d'.mappings == d.mappings && d'.handles == d.handles
    requires forall c :: c in live ==>
      && c in table' && table'[c] == table[c]
      && c in d'.reservations && d'.reservations[c] == table[c].size
    ensures AllHeld(d', table', live)
    ensures Accounted(d, table, live) ==> Accounted(d', table', live)
  {
    if Accounted(d, table, live) {
      SameOwners(table, table', live, live);
    }
    forall c | c in live
      ensures Held(d', c, table'[c])
    {
      OthersHeld(d, d', 0, 0, c, table[c]);
    }
    forall b, c | b in live && c in live && b != c
      ensures table'[b].Physical() !! table'[c].Physical()
    {
      assert table[b].Physical() !! table[c].Physical();
    }
  }

  /** A new or woken allocation brings exactly its own handles and tiles. */
  lemma AccountMore(d: Tables, d': Tables, table: map<Addr, Alloc>, live: set<Addr>, base: Addr, a: Alloc)
    requires Accounted(d, table, live)
    requires base in live ==> base in table && table[base].asleep && table[base].size == a.size
    requires a.Shaped() && !a.asleep && d'.handles == d.handles + a.Physical()
    requires d'.mappings == d.mappings + TileMap(base, a.sizes, a.handles, |a.sizes|)
    ensures Accounted(d', table[base := a], live + {base})
  {
    var table', live' := table[base := a], live + {base};
    forall h | h in d'.handles
      ensures Owned(table', live', h)
    {
      if h in a.Physical() {
        assert base in live' && h in table'[base].Physical();
      } else {
        var b :| b in live && b in table && h in table[b].Physical();
        assert b in live' && h in table'[b].Physical();
      }
    }
    TileKeys(base, a.sizes, a.handles, |a.sizes|);
    RegionCovers(a.sizes, |a.sizes|);
    forall m | m in d'.mappings
      ensures Within(table', live', m)
    {
      if m in d.mappings {
        assert Within(table, live, m);
        var b :| b in live && b in table && b <= m < b + table[b].size;
        assert b in live' && b <= m < b + table'[b].size;
      } else {
        assert base in live' && base <= m < base + table'[base].size;
      }
    }
  }

  /** A newly reserved range holds no mapping. */
  lemma FreshRangeEmpty(d: Tables, base: Addr, size: nat)
    requires forall m :: m in d.mappings ==> Covered(d.reservations, m)
    requires forall a :: a in d.reservations ==> Disjoint(base, size, a, d.reservations[a])
    ensures Inside(d.mappings, base, size) == map[]
  {
    forall m | m in d.mappings
      ensures !(base <= m < base + size)
    {
      var a :| a in d.reservations && a <= m < a + d.reservations[a];
      assert Disjoint(base, size, a, d.reservations[a]);
    }
  }

  /** Mapping the chunks into an empty range makes the range hold exactly the tiles. */
  lemma MappedIsHeld(d: Tables, d': Tables, base: Addr, a: Alloc)
    requires a.Shaped() && !a.asleep && Distinct(a.handles)
    requires Inside(d.mappings, base, a.size) == map[]
    requires base in d'.reservations && d'.reservations[base] == a.size
    requires d'.mappings == d.mappings + TileMap(base, a.sizes, a.handles, |a.sizes|)
    requires Elems(a.handles) <= d'.handles
    ensures Held(d', base, a)
    ensures SameOutside(d.mappings, d'.mappings, base, a.size)
  {
    var tiles := TileMap(base, a.sizes, a.handles, |a.sizes|);
    TileKeys(base, a.sizes, a.handles, |a.sizes|);
    RegionCovers(a.sizes, |a.sizes|);
    TilesOutside(d.mappings, base, a.sizes, a.handles);
    assert forall m :: m in d.mappings && base <= m < base + a.size ==> m in Inside(d.mappings, base, a.size);
    assert Inside(d'.mappings, base, a.size) == tiles;
  }

  /** Unmapping and releasing an allocation touches only its own range and handles; without a
      failure, nothing of it is left. */
  lemma DetachedLeavesOthers(d: Tables, d': Tables, base: Addr, a: Alloc, unmaps: seq<int>, releases: seq<int>)
    requires Held(d, base, a) && !a.asleep && |unmaps| == |releases| == |a.sizes|
    requires Left(d.mappings, d'.mappings, base, a.sizes, unmaps)
    requires forall h :: h in d'.handles <==> h in d.handles && !Released(a.handles, releases, h)
    ensures SameOutside(d.mappings, d'.mappings, base, a.size)
    ensures d.handles - a.Physical() <= d'.handles <= d.handles
    ensures FirstError(unmaps + releases) == 0 ==>
      && Inside(d'.mappings, base, a.size) == map[]
      && d'.handles == d.handles - a.Physical()
  {
    UndoneIsTile(base, a.sizes, a.handles, |a.sizes|, unmaps);
    FirstErrorConcat(unmaps, releases);
    if FirstError(unmaps + releases) == 0 {
      forall m | m in d'.mappings
        ensures !(base <= m < base + a.size)
      {
        if base <= m < base + a.size {
          assert m in Inside(d.mappings, base, a.size);
          var j := TileIndex(base, a.sizes, a.handles, |a.sizes|, m);
          NoError(unmaps, j);
          assert false;
        }
      }
      forall i: nat | i < |a.handles|
        ensures Released(a.handles, releases, a.handles[i])
      {
        NoError(releases, i);
      }
    }
  }

  /** After a clean detachment the rest is still accounted for. */
  lemma AccountLess(d: Tables, d': Tables, table: map<Addr, Alloc>, live: set<Addr>, base: Addr)
    requires AllHeld(d, table, live) && Accounted(d, table, live) && base in live
    requires d'.handles == d.handles - table[base].Physical()
    requires Inside(d'.mappings, base, table[base].size) == map[]
    requires SameOutside(d.mappings, d'.mappings, base, table[base].size)
    ensures Accounted(d', table, live - {base})
  {
    forall h | h in d'.handles
      ensures Owned(table, live - {base}, h)
    {
      OwnedByAnother(table, live, base, h);
    }
    forall m | m in d'.mappings
      ensures Within(table, live - {base}, m)
    {
      assert m !in Inside(d'.mappings, base, table[base].size);
      WithinAnother(table, live, base, m);
    }
  }

  lemma OwnedByAnother(table: map<Addr, Alloc>, live: set<Addr>, base: Addr, h: Handle)
    requires base in table && Owned(table, live, h) && h !in table[base].Physical()
    ensures Owned(table, live - {base}, h)
  {
    var b :| b in live && b in table && h in table[b].Physical();
    assert b in live - {base};
  }

  lemma WithinAnother(table: map<Addr, Alloc>, live: set<Addr>, base: Addr, m: Addr)
    requires base in table && Within(table, live, m) && !(base <= m < base + table[base].size)
    ensures Within(table, live - {base}, m)
  {
    var b :| b in live && b in table && b <= m < b + table[b].size;
    assert b in live - {base};
  }

  /** Reserving a free range again at the base of a sleeping allocation makes it held. */
  lemma PlaceholderHeld(d: Tables, d': Tables, table: map<Addr, Alloc>, live: set<Addr>, base: Addr)
    requires AllHeld(d, table, live) && base !in live && base in table
    requires table[base].Shaped() && table[base].asleep
    requires forall m :: m in d.mappings ==> Covered(d.reservations, m)
    requires base !in d.reservations
    requires forall c :: c in d.reservations ==> Disjoint(base, table[base].size, c, d.reservations[c])
    requires d' == d.(reservations := d.reservations[base := table[base].size])
    ensures AllHeld(d', table, live + {base})
    ensures Accounted(d, table, live) ==> Accounted(d', table, live + {base})
  {
    FreshRangeEmpty(d, base, table[base].size);
    assert forall c :: c in live ==> Held(d, c, table[c]);
    Replace(d, d', table, live, base, table[base]);
    assert table[base := table[base]] == table;
    SameOwners(table, table, live, live + {base});
  }

  ghost predicate IsRest(reservations: map<Addr, nat>, live: set<Addr>, others: map<Addr, nat>) {
    reservations - live == others
  }

  lemma RestWithOne(reservations: map<Addr, nat>, live: set<Addr>, others: map<Addr, nat>, ptr: Addr, size: nat)
    requires ptr !in reservations
    ensures IsRest(reservations, live, others) ==> IsRest(reservations[ptr := size], live + {ptr}, others)
  {
    assert reservations[ptr := size] - (live + {ptr}) == reservations - live;
  }

  lemma RestWithoutOne(reservations: map<Addr, nat>, live: set<Addr>, others: map<Addr, nat>, ptr: Addr)
    requires ptr in live
    ensures IsRest(reservations, live, others) ==> IsRest(reservations - {ptr}, live - {ptr}, others)
  {
    assert reservations - {ptr} - (live - {ptr}) == reservations - live;
  }

  lemma RestWithTaken(
      reservations: map<Addr, nat>, live: set<Addr>, others: map<Addr, nat>, taken: map<Addr, nat>)
    requires live <= reservations.Keys && taken.Keys !! reservations.Keys
    ensures IsRest(reservations, live, others) ==> IsRest(reservations + taken, live, others + taken)
  {
    assert reservations + taken - live == (reservations - live) + taken;
  }

  /** A range freed and reserved again while others reserve elsewhere. */
  lemma ReservedAgain(reservations: map<Addr, nat>, taken: map<Addr, nat>, ptr: Addr, size: nat)
    requires ptr in reservations && reservations[ptr] == size && taken.Keys !! (reservations - {ptr}).Keys
    ensures ptr !in taken ==>
      && (reservations - {ptr} + taken)[ptr := size] == reservations + taken && taken.Keys !! reservations.Keys
    ensures (reservations - {ptr} + taken).Keys <= reservations.Keys + taken.Keys
  {
  }

  /** An allocation whose memory has just been mapped joins the live ones, or wakes among them. */
  lemma MappedJoins(d: Tables, d': Tables, table: map<Addr, Alloc>, live: set<Addr>, base: Addr, a: Alloc)
    requires AllHeld(d, table, live) && d'.reservations == d.reservations
    requires base in live ==> table[base].asleep && table[base].size == a.size
    requires a.Shaped() && !a.asleep && Distinct(a.handles)
    requires Inside(d.mappings, base, a.size) == map[]
    requires base in d.reservations && d.reservations[base] == a.size
    requires d'.mappings == d.mappings + TileMap(base, a.sizes, a.handles, |a.sizes|)
    requires d'.handles == d.handles + a.Physical() && a.Physical() !! d.handles
    ensures AllHeld(d', table[base := a], live + {base})
    ensures Accounted(d, table, live) ==> Accounted(d', table[base := a], live + {base})
  {
    assert forall c :: c in live ==> Held(d, c, table[c]);
    MappedIsHeld(d, d', base, a);
    Replace(d, d', table, live, base, a);
    if Accounted(d, table, live) {
      AccountMore(d, d', table, live, base, a);
    }
  }

  /** What happens inside the range of one allocation leaves the other live ones held. */
  lemma LosesOne(d: Tables, d': Tables, table: map<Addr, Alloc>, live: set<Addr>, base: Addr, size: nat)
    requires AllHeld(d, table, live) && d'.reservations == d.reservations && d.handles <= d'.handles
    requires base in d.reservations && d.reservations[base] == size
    requires SameOutside(d.mappings, d'.mappings, base, size)
    ensures AllHeld(d', table, live - {base})
  {
    assert forall c :: c in live ==> Held(d, c, table[c]);
    Keep(d, d', table, table, live, live - {base}, base, size);
  }

  /** Whatever happens to reservations that were not there before, the live allocations stay held. */
  lemma KeptReservations(d: Tables, d': Tables, table: map<Addr, Alloc>, live: set<Addr>)
    requires AllHeld(d, table, live) && AllDisjoint(d'.reservations)
    requires d'.mappings == d.mappings && d'.handles == d.handles
    requires forall r :: r in d.reservations ==> r in d'.reservations && d'.reservations[r] == d.reservations[r]
    ensures AllHeld(d', table, live)
    ensures Accounted(d, table, live) ==> Accounted(d', table, live)
  {
    assert forall c :: c in live ==> Held(d, c, table[c]);
    KeepTables(d, d', table, table, live);
  }

  lemma OutAndIn(live: set<Addr>, base: Addr)
    requires base in live
    ensures live - {base} + {base} == live
  {
  }

  lemma AlreadyIn(live: set<Addr>, base: Addr)
    requires base in live
    ensures live + {base} == live
  {
  }

  lemma UpdateTwice(table: map<Addr, Alloc>, base: Addr, a: Alloc, b: Alloc)
    ensures table[base := a][base := b] == table[base := b]
  {
  }

  lemma NotInside(mappings: map<Addr, Mapping>, base: Addr, size: nat)
    requires Inside(mappings, base, size) == map[] && size > 0
    ensures base !in mappings
  {
    assert base in mappings ==> base in Inside(mappings, base, size);
  }

  lemma FirstTile(mappings: map<Addr, Mapping>, base: Addr, sizes: seq<nat>, handles: seq<Handle>)
    requires AllPositive(sizes) && Sum(sizes) > 0 && |handles| == |sizes|
    ensures base in mappings + TileMap(base, sizes, handles, |sizes|)
  {
    TileKeys(base, sizes, handles, |sizes|);
    assert sizes != [] && Offset(sizes, 0) == 0;
    assert base + Offset(sizes, 0) in TileMap(base, sizes, handles, |sizes|);
  }

  /** An allocation has been mapped: its handles are new, its tiles fill its range, and every tile is
      accessible, zeroed and backed by a handle of its size. */
  ghost predicate IsMapped(handles: set<Handle>, mappings: map<Addr, Mapping>,
                           handles': set<Handle>, mappings': map<Addr, Mapping>, memory: Memory, base: Addr, a: Alloc)
  {
    && !a.asleep && |a.handles| == |a.sizes|
    && handles' == handles + a.Physical() && a.Physical() !! handles
    && mappings' == mappings + TileMap(base, a.sizes, a.handles, |a.sizes|)
    && Usable(memory, base, a.sizes, a.handles) && Zeroed(memory, base, a.sizes)
  }

  /** Every awake allocation can be used. */
  ghost predicate AllUsable(memory: Memory, table: map<Addr, Alloc>, live: set<Addr>) {
    forall b :: b in live && b in table && !table[b].asleep ==> Usable(memory, b, table[b].sizes, table[b].handles)
  }

  lemma UsableKept(d: Tables, memory: Memory, memory': Memory, table: map<Addr, Alloc>, live: set<Addr>)
    requires AllHeld(d, table, live) && Keeps(memory, memory', d.handles, d.mappings)
    ensures AllUsable(memory, table, live) ==> AllUsable(memory', table, live)
  {
    if AllUsable(memory, table, live) {
      forall b | b in live && b in table && !table[b].asleep
        ensures Usable(memory', b, table[b].sizes, table[b].handles)
      {
        assert Held(d, b, table[b]);
        OneUsableKept(d, memory, memory', b, table[b]);
      }
    }
  }

  lemma OneUsableKept(d: Tables, memory: Memory, memory': Memory, base: Addr, a: Alloc)
    requires Held(d, base, a) && !a.asleep && Keeps(memory, memory', d.handles, d.mappings)
    requires Usable(memory, base, a.sizes, a.handles)
    ensures Usable(memory', base, a.sizes, a.handles)
  {
    forall i | 0 <= i < |a.sizes|
      ensures a.handles[i] in memory'.sizes && memory'.sizes[a.handles[i]] == a.sizes[i]
    {
      assert a.handles[i] in a.Physical();
    }
    TileKeys(base, a.sizes, a.handles, |a.sizes|);
    forall i: nat | i < |a.sizes|
      ensures base + Offset(a.sizes, i) in memory'.accessible
    {
      assert base + Offset(a.sizes, i) in Inside(d.mappings, base, a.size);
    }
  }

  /** Allocations that stop being live, are put to sleep or are recorded without being live do not matter. */
  lemma UsableStill(memory: Memory, table: map<Addr, Alloc>, live: set<Addr>, table': map<Addr, Alloc>, live': set<Addr>)
    requires AllUsable(memory, table, live)
    requires forall b :: b in live' && b in table' && !table'[b].asleep ==> b in live && b in table && table'[b] == table[b]
    ensures AllUsable(memory, table', live')
  {
  }

  class Pool {
    const alloc: Allocator
    const driver: Driver
    const granularity: nat
    const baseChunk: nat
    /** The Python side's record of allocations, by base address. */
    var table: map<Addr, Alloc>
    /** The allocations returned by malloc, not yet freed, and not lost to an error. */
    ghost var live: set<Addr>
    /** Some failed call left physical memory behind. */
    ghost var leaked: bool

    constructor (driver: Driver, granularity: nat, env: Setting)
      requires driver.Valid() && granularity > 0 && (env.Megabytes? ==> env.value < MODULUS)
      requires driver.handles == {} && driver.mappings == map[]
      ensures Valid() && fresh(alloc) && this.driver == driver && this.granularity == granularity
      ensures live == {} && !leaked && alloc.errorCode == 0 && Backed() && (Tidy() <==> driver.reservations == driver.others)
    {
      this.driver := driver;
      this.granularity := granularity;
      baseChunk := BaseChunk(env);
      table, live, leaked := map[], {}, false;
      alloc := new Allocator(driver);
    }

    ghost function D(): Tables
      reads driver
    {
      Tables(driver.reservations, driver.handles, driver.mappings)
    }

    /** Every reservation is of a live allocation or one that others made. */
    ghost predicate Tidy()
      reads this, driver
    {
      IsRest(driver.reservations, live, driver.others)
    }

    /** The device can use the memory of every allocation that is awake. */
    ghost predicate Backed()
      reads this, driver
    {
      AllUsable(driver.memory, table, live)
    }

    ghost predicate Valid()
      reads this, alloc, driver
    {
      && alloc.driver == driver && granularity > 0 && 0 < baseChunk < MODULUS
      && driver.Valid() && alloc.errorCode >= 0
      && AllHeld(D(), table, live)
      && (!leaked ==> Accounted(D(), table, live))
    }

    /** Maps fresh memory into a reserved, empty range: the final step of malloc, and all of wake. If
        that fails, the allocation stays as it was after a clean rollback, and is lost otherwise. */
    method Attach(ptr: Addr, size: nat, sizes: seq<nat>) returns (ghost outcome: Outcome)
      requires Valid()
      requires AllPositive(sizes) && Sum(sizes) == size > 0
      requires ptr in driver.reservations && driver.reservations[ptr] == size
      requires Inside(driver.mappings, ptr, size) == map[]
      requires ptr in live ==> table[ptr].asleep && table[ptr].size == size
      modifies this, alloc, driver`handles, driver`nextHandle, driver`mappings, driver`failures, driver`firstError, driver`memory
      ensures Valid() && (alloc.errorCode == 0 <==> outcome.Mapped?)
      ensures Calls(old(alloc.errorCode), outcome, old(driver.failures), driver.failures)
      ensures outcome.Mapped? ==>
        && live == old(live) + {ptr} && leaked == old(leaked)
        && ptr in table && table == old(table)[ptr := table[ptr]]
        && table[ptr].size == size && table[ptr].sizes == sizes
        && IsMapped(old(driver.handles), old(driver.mappings), driver.handles, driver.mappings, driver.memory, ptr, table[ptr])
      ensures outcome.Unfinished? ==> ptr in driver.mappings
      ensures Keeps(old(driver.memory), driver.memory, old(driver.handles), old(driver.mappings))
      ensures outcome == RolledBack(true) ==>
        && live == old(live) && leaked == old(leaked)
        && driver.handles == old(driver.handles) && driver.mappings == old(driver.mappings)
      ensures !outcome.Mapped? ==> table == old(table)
      ensures !outcome.Mapped? && outcome != RolledBack(true) ==> live == old(live) - {ptr} && leaked
    {
      var cells := new Handle[|sizes|];
      outcome := alloc.CreateAndMap(ptr, size, sizes, cells);
      if alloc.errorCode == 0 {
        var a := Alloc(size, sizes, cells[..], false);
        MappedJoins(old(D()), D(), table, live, ptr, a);
        table := table[ptr := a];
        live := live + {ptr};
      } else if outcome != RolledBack(true) {
        if outcome.Unfinished? {
          FirstTile(old(driver.mappings), ptr, sizes, cells[..]);
        }
        LosesOne(old(D()), D(), table, live, ptr, size);
        live := live - {ptr};
        leaked := true;
      }
    }

    /** Unmaps and releases an awake allocation, which is then no longer live. */
    method Detach(ptr: Addr) returns (ghost clean: bool)
      requires Valid() && ptr in live && !table[ptr].asleep
      modifies this`live, this`leaked, alloc, driver`handles, driver`mappings, driver`failures, driver`firstError
      ensures Valid() && live == old(live) - {ptr}
      ensures driver.failures >= old(driver.failures) && (clean <==> driver.failures == old(driver.failures))
      ensures clean ==>
        && alloc.errorCode == old(alloc.errorCode) && leaked == old(leaked)
        && driver.handles == old(driver.handles) - table[ptr].Physical()
        && Inside(driver.mappings, ptr, table[ptr].size) == map[]
      ensures !clean ==> alloc.errorCode != 0 && leaked
      ensures SameOutside(old(driver.mappings), driver.mappings, ptr, table[ptr].size)
    {
      var a := table[ptr];
      assert Held(D(), ptr, a);
      assert forall c :: c in live && c != ptr ==> Held(D(), c, table[c]);
      ghost var unmaps, releases := alloc.UnmapAndRelease(ptr, a.sizes, a.handles);
      clean := FirstError(unmaps + releases) == 0;
      NoFailures(unmaps + releases);
      DetachedLeavesOthers(old(D()), D(), ptr, a, unmaps, releases);
      Keep(old(D()), D(), table, table, live, live - {ptr}, ptr, a.size);
      if clean && !leaked {
        AccountLess(old(D()), D(), table, live, ptr);
      }
      live := live - {ptr};
      leaked := leaked || !clean;
    }

    /** my_malloc, given that the size computations do not wrap. */
    method Malloc(size: nat) returns (ptr: Addr)
      requires Valid() && SumsFit(size, baseChunk, granularity)
      modifies this, alloc, driver
      ensures Valid()
      ensures ptr == 0 <==> alloc.errorCode != 0
      ensures ptr == 0 ==> live == old(live) && forall b :: b in live ==> table[b] == old(table)[b]
      ensures driver.failures >= old(driver.failures) && driver.others == old(driver.others)
      ensures driver.failures == old(driver.failures) ==> (ptr != 0 <==> old(alloc.errorCode) == 0) && leaked == old(leaked)
      ensures ptr != 0 ==>
        && ptr !in old(live) && live == old(live) + {ptr} && leaked == old(leaked)
        && ptr in table && table == old(table)[ptr := table[ptr]]
        && ptr % granularity == 0 && Planned(table[ptr], size, baseChunk, granularity)
        && ptr !in old(driver.reservations) && driver.reservations == old(driver.reservations)[ptr := table[ptr].size]
        && IsMapped(old(driver.handles), old(driver.mappings), driver.handles, driver.mappings, driver.memory, ptr, table[ptr])
      ensures Keeps(old(driver.memory), driver.memory, old(driver.handles), old(driver.mappings))
      // if the call that failed it is the only one that failed, the driver's tables are as they were
      ensures ptr == 0 && (old(alloc.errorCode) != 0 || driver.failures == old(driver.failures) + 1) ==> D() == old(D())
    {
      var status := driver.OtherCall();  // cuMemGetAllocationGranularity
      if status != 0 {
        alloc.errorCode := status;
      }
      if alloc.errorCode != 0 {
        return 0;
      }
      var aligned, sizes := Plan(size);
      ptr := Allocate(aligned, sizes);
    }

    /** The aligned size and the chunk sizes for a request. */
    method Plan(size: nat) returns (aligned: nat, sizes: seq<nat>)
      requires Valid() && SumsFit(size, baseChunk, granularity)
      ensures AllPositive(sizes) && Sum(sizes) == aligned
      ensures forall a: Alloc :: a.size == aligned && a.sizes == sizes ==> Planned(a, size, baseChunk, granularity)
    {
      RoundUpIsLeast(size, granularity);
      RoundUpIsLeast(baseChunk, granularity);
      aligned := RoundUp(size, granularity);
      var chunk := RoundUp(baseChunk, granularity);
      ChunksTile(aligned, chunk, granularity);
      var chunks := FillChunks(aligned, chunk);
      sizes := chunks[..];
    }

    /** Reserves a range, makes the record and maps the memory. */
    method Allocate(size: nat, sizes: seq<nat>) returns (ptr: Addr)
      requires Valid() && alloc.errorCode == 0 && AllPositive(sizes) && Sum(sizes) == size
      modifies this, alloc, driver
      ensures Valid() && (ptr == 0 <==> alloc.errorCode != 0)
      ensures ptr == 0 ==> live == old(live) && forall b :: b in live ==> table[b] == old(table)[b]
      ensures driver.others == old(driver.others)
      ensures driver.failures >= old(driver.failures) && (ptr == 0 ==> driver.failures > old(driver.failures))
      ensures ptr != 0 ==>
        && ptr !in old(live) && live == old(live) + {ptr} && leaked == old(leaked)
        && ptr in table && table == old(table)[ptr := table[ptr]] && ptr % granularity == 0
        && table[ptr].size == size && table[ptr].sizes == sizes
        && ptr !in old(driver.reservations) && driver.reservations == old(driver.reservations)[ptr := size]
        && IsMapped(old(driver.handles), old(driver.mappings), driver.handles, driver.mappings, driver.memory, ptr, table[ptr])
      ensures Keeps(old(driver.memory), driver.memory, old(driver.handles), old(driver.mappings))
      ensures ptr == 0 && driver.failures == old(driver.failures) + 1 ==> D() == old(D())
    {
      ptr := ReserveNew(size);
      if ptr != 0 {
        ghost var reserved := driver.reservations;
        var ok := AttachNew(ptr, size, sizes);
        if !ok {
          assert reserved - {ptr} == old(driver.reservations);
          ptr := 0;
        }
      }
    }

    /** The reservation of a new, empty range. */
    method ReserveNew(size: nat) returns (ptr: Addr)
      requires Valid() && alloc.errorCode == 0
      modifies alloc, driver`reservations, driver`failures, driver`firstError, driver`wish
      ensures Valid() && (ptr == 0 <==> alloc.errorCode != 0)
      ensures driver.failures >= old(driver.failures) && (ptr == 0 ==> driver.failures > old(driver.failures))
      ensures ptr == 0 && driver.failures == old(driver.failures) + 1 ==> driver.reservations == old(driver.reservations)
      ensures ptr != 0 ==>
        && size > 0 && ptr !in live && ptr % granularity == 0
        && ptr !in old(driver.reservations) && driver.reservations == old(driver.reservations)[ptr := size]
        && Inside(driver.mappings, ptr, size) == map[]
    {
      assert forall c :: c in live ==> Held(D(), c, table[c]);
      var status, addr, stray := alloc.ReserveAddress(size, granularity, 0);
      KeepTables(old(D()), D(), table, table, live);
      if status != 0 {
        alloc.errorCode := status;
        return 0;
      }
      FreshRangeEmpty(old(D()), addr, size);
      return addr;
    }

    /** The second half of malloc: the record is made, the memory mapped, and the address freed again
        if that fails. The record of a failed malloc stays behind. */
    method AttachNew(ptr: Addr, size: nat, sizes: seq<nat>) returns (ok: bool)
      requires Valid() && alloc.errorCode == 0 && ptr !in live
      requires AllPositive(sizes) && Sum(sizes) == size > 0
      requires ptr in driver.reservations && driver.reservations[ptr] == size
      requires Inside(driver.mappings, ptr, size) == map[]
      modifies this, alloc, driver`reservations, driver`handles, driver`nextHandle, driver`mappings, driver`failures,
        driver`firstError, driver`memory
      ensures Valid() && (ok <==> alloc.errorCode == 0)
      ensures !ok ==> live == old(live) && forall b :: b in live ==> table[b] == old(table)[b]
      ensures driver.failures >= old(driver.failures) && (!ok ==> driver.failures > old(driver.failures))
      ensures ok ==>
        && live == old(live) + {ptr} && leaked == old(leaked)
        && ptr in table && table == old(table)[ptr := table[ptr]]
        && table[ptr].size == size && table[ptr].sizes == sizes
        && driver.reservations == old(driver.reservations)
        && IsMapped(old(driver.handles), old(driver.mappings), driver.handles, driver.mappings, driver.memory, ptr, table[ptr])
      ensures Keeps(old(driver.memory), driver.memory, old(driver.handles), old(driver.mappings))
      // if the call that failed it is the only one that failed, nothing is left of it but its record
      ensures !ok && driver.failures == old(driver.failures) + 1 ==>
        D() == old(D()).(reservations := old(driver.reservations) - {ptr})
    {
      ghost var before := table;
      var a := Alloc(size, sizes, [], false);
      Record(ptr, a);
      ok := MapOrFree(ptr, size, sizes);
      UpdateTwice(before, ptr, a, if ok then table[ptr] else a);
    }

    /** Maps the memory of a new allocation, or frees its address. */
    method MapOrFree(ptr: Addr, size: nat, sizes: seq<nat>) returns (ok: bool)
      requires Valid() && alloc.errorCode == 0 && ptr !in live
      requires AllPositive(sizes) && Sum(sizes) == size > 0
      requires ptr in driver.reservations && driver.reservations[ptr] == size
      requires Inside(driver.mappings, ptr, size) == map[]
      modifies this, alloc, driver`reservations, driver`handles, driver`nextHandle, driver`mappings, driver`failures,
        driver`firstError, driver`memory
      ensures Valid() && (ok <==> alloc.errorCode == 0)
      ensures driver.failures >= old(driver.failures) && (!ok ==> driver.failures > old(driver.failures))
      ensures !ok ==> live == old(live) && table == old(table)
      ensures ok ==>
        && live == old(live) + {ptr} && leaked == old(leaked)
        && ptr in table && table == old(table)[ptr := table[ptr]]
        && table[ptr].size == size && table[ptr].sizes == sizes
        && driver.reservations == old(driver.reservations)
        && IsMapped(old(driver.handles), old(driver.mappings), driver.handles, driver.mappings, driver.memory, ptr, table[ptr])
      ensures Keeps(old(driver.memory), driver.memory, old(driver.handles), old(driver.mappings))
      ensures !ok && driver.failures == old(driver.failures) + 1 ==>
        D() == old(D()).(reservations := old(driver.reservations) - {ptr})
    {
      ghost var outcome := Attach(ptr, size, sizes);
      ok := alloc.errorCode == 0;
      if !ok {
        Abandon(ptr, size, old(D()), outcome, old(driver.failures));
      }
    }

    /** Frees the address of an allocation whose memory could not be mapped. */
    method Abandon(ptr: Addr, size: nat, ghost before: Tables, ghost outcome: Outcome, ghost failures: nat)
      requires Valid() && ptr !in live && alloc.errorCode != 0 && size > 0
      requires !outcome.Mapped? && Calls(0, outcome, failures, driver.failures)
      requires outcome == RolledBack(true) ==> D() == before
      requires outcome.Unfinished? ==> ptr in driver.mappings
      modifies alloc, driver`reservations, driver`failures, driver`firstError
      ensures Valid() && alloc.errorCode != 0 && driver.failures > failures
      ensures driver.failures == failures + 1 ==> D() == before.(reservations := before.reservations - {ptr})
    {
      ghost var freed := FreeAddress(ptr, size);
      if freed {
        NotInside(driver.mappings, ptr, size);
      }
    }

    /** Enters the record of an allocation that is not live: what the malloc callback does, and the mark
        of sleep. */
    method Record(ptr: Addr, a: Alloc)
      requires Valid() && ptr !in live
      modifies this`table
      ensures Valid() && table == old(table)[ptr := a]
    {
      KeepTables(D(), D(), table, table[ptr := a], live);
      table := table[ptr := a];
    }

    /** The checked call that frees the address of an allocation that is no longer live. */
    method FreeAddress(ptr: Addr, size: nat) returns (ghost freed: bool)
      requires Valid() && ptr !in live
      modifies alloc, driver`reservations, driver`failures, driver`firstError
      ensures Valid()
      ensures driver.failures == old(driver.failures) + if freed then 0 else 1
      ensures freed ==>
        && driver.reservations == old(driver.reservations) - {ptr} && alloc.errorCode == old(alloc.errorCode)
        && ptr in old(driver.reservations) && size == old(driver.reservations)[ptr]
        && Inside(driver.mappings, ptr, size) == map[]
      ensures !freed ==> driver.reservations == old(driver.reservations) && alloc.errorCode != 0
    {
      assert forall c :: c in live ==> Held(D(), c, table[c]);
      var status := driver.AddressFree(ptr, size);
      freed := status == 0;
      KeepTables(old(D()), D(), table, table, live);
      if status != 0 {
        alloc.errorCode := status;
      }
    }

    /** A sleeping allocation holds nothing but its address, so it can stop being live. */
    ghost method Retire(ptr: Addr)
      requires Valid() && ptr in live && table[ptr].asleep
      modifies this`live
      ensures Valid() && live == old(live) - {ptr}
    {
      assert Held(D(), ptr, table[ptr]);
      Keep(D(), D(), table, table, live, live - {ptr}, ptr, table[ptr].size) by {
        assert forall c :: c in live && c != ptr ==> Held(D(), c, table[c]);
      }
      if !leaked {
        AccountLess(D(), D(), table, live, ptr);
      }
      live := live - {ptr};
    }

    /** my_free of a live allocation. The driver refuses a size that is not the recorded one, so the call
        is clean only with that size. An allocation that is asleep has no chunks to unmap, only its
        placeholder address to free. */
    method Free(ptr: Addr, size: nat) returns (ghost clean: bool)
      requires Valid() && ptr in live
      modifies this, alloc, driver`reservations, driver`handles, driver`mappings, driver`failures, driver`firstError
      ensures Valid() && live == old(live) - {ptr} && table == old(table) - {ptr}
      ensures driver.failures >= old(driver.failures) && (clean <==> driver.failures == old(driver.failures))
      ensures clean ==>
        && size == old(table[ptr]).size && alloc.errorCode == old(alloc.errorCode) && leaked == old(leaked)
        && driver.reservations == old(driver.reservations) - {ptr}
        && driver.handles == old(driver.handles) - old(table[ptr]).Physical()
        && SameOutside(old(driver.mappings), driver.mappings, ptr, size)
        && Inside(driver.mappings, ptr, size) == map[]
      ensures !clean ==> alloc.errorCode != 0
    {
      ghost var before := D();
      assert Held(before, ptr, table[ptr]);
      if !table[ptr].asleep {
        clean := Detach(ptr);
      } else {
        clean := true;
        Retire(ptr);
      }
      ghost var freed := FreeAddress(ptr, size);
      clean := clean && freed;
      KeepTables(D(), D(), table, table - {ptr}, live);
      table := table - {ptr};
    }

    /** Sleep of one awake allocation: its memory is given up, its address freed and at once reserved
        again as an empty placeholder. Others may reserve addresses in between (`taken`). Sleep
        either holds exactly the old address or reports an error, and unless the driver refuses to
        free it (`strayKept`) it never keeps a range it did not ask for. */
    method Sleep(ptr: Addr) returns (ok: bool, ghost taken: map<Addr, nat>, ghost strayKept: bool)
      requires Valid() && ptr in live && !table[ptr].asleep
      modifies this, alloc, driver`reservations, driver`handles, driver`mappings, driver`failures, driver`firstError,
        driver`wish, driver`others
      ensures Valid() && alloc.errorCode == 0
      ensures table == old(table)[ptr := old(table)[ptr].(asleep := true)]
      ensures driver.failures >= old(driver.failures) && driver.others == old(driver.others) + taken
      ensures strayKept ==> driver.failures > old(driver.failures)
      ensures ok ==>
        && old(alloc.errorCode) == 0 && live == old(live) && leaked == old(leaked) && !strayKept
        && ptr in driver.reservations && driver.reservations[ptr] == table[ptr].size
        && driver.reservations == old(driver.reservations) + taken && taken.Keys !! old(driver.reservations).Keys
        && driver.handles == old(driver.handles) - old(table)[ptr].Physical()
        && Inside(driver.mappings, ptr, table[ptr].size) == map[]
      ensures !ok ==> live == old(live) - {ptr}
      ensures !ok && !strayKept ==> driver.reservations.Keys <= old(driver.reservations).Keys + taken.Keys
    {
      taken, strayKept := map[], false;
      ghost var clean := GiveUp(ptr);
      OutAndIn(old(live), ptr);
      if alloc.errorCode == 0 {
        taken, strayKept := Vacate(ptr, old(table[ptr]));
      }
      ok := alloc.errorCode == 0;
      alloc.errorCode := 0;
    }

    /** The first half of sleep: the memory is given up and the record says so. */
    method GiveUp(ptr: Addr) returns (ghost clean: bool)
      requires Valid() && ptr in live && !table[ptr].asleep
      modifies this`live, this`leaked, this`table, alloc, driver`handles, driver`mappings, driver`failures, driver`firstError
      ensures Valid() && live == old(live) - {ptr}
      ensures table == old(table)[ptr := old(table)[ptr].(asleep := true)] && old(table)[ptr].Shaped()
      ensures ptr in driver.reservations && driver.reservations[ptr] == table[ptr].size
      ensures driver.failures >= old(driver.failures) && (clean <==> driver.failures == old(driver.failures))
      ensures clean ==>
        && alloc.errorCode == old(alloc.errorCode) && leaked == old(leaked)
        && driver.handles == old(driver.handles) - old(table)[ptr].Physical()
        && Inside(driver.mappings, ptr, table[ptr].size) == map[]
      ensures !clean ==> alloc.errorCode != 0
    {
      var a := table[ptr];
      assert Held(D(), ptr, a);
      clean := Detach(ptr);
      Record(ptr, a.(asleep := true));
    }

    /** Frees the address of a detached allocation and reserves it again. */
    method Vacate(ptr: Addr, ghost a: Alloc) returns (ghost taken: map<Addr, nat>, ghost strayKept: bool)
      requires Valid() && alloc.errorCode == 0 && ptr !in live
      requires ptr in table && table[ptr] == a.(asleep := true) && a.Shaped()
      requires ptr in driver.reservations && driver.reservations[ptr] == a.size
      modifies this`live, alloc, driver`reservations, driver`failures, driver`firstError, driver`wish, driver`others
      ensures Valid() && driver.others == old(driver.others) + taken
      ensures driver.failures >= old(driver.failures) && (strayKept ==> driver.failures > old(driver.failures))
      ensures alloc.errorCode == 0 ==>
        && live == old(live) + {ptr} && !strayKept
        && driver.reservations == old(driver.reservations) + taken && taken.Keys !! old(driver.reservations).Keys
      ensures alloc.errorCode != 0 ==> live == old(live)
      ensures alloc.errorCode != 0 && !strayKept ==>
        driver.reservations.Keys <= old(driver.reservations).Keys + taken.Keys
    {
      taken, strayKept := map[], false;
      ghost var freed := FreeAddress(ptr, table[ptr].size);
      if alloc.errorCode == 0 {
        taken := Interfere();
        strayKept := Placeholder(ptr, a);
        ReservedAgain(old(driver.reservations), taken, ptr, a.size);
      }
    }

    /** Others reserve addresses; nothing live changes. */
    method Interfere() returns (ghost taken: map<Addr, nat>)
      requires Valid()
      modifies driver`reservations, driver`failures, driver`firstError, driver`wish, driver`others
      ensures Valid() && driver.failures == old(driver.failures) && driver.others == old(driver.others) + taken
      ensures driver.reservations == old(driver.reservations) + taken && taken.Keys !! old(driver.reservations).Keys
    {
      taken := driver.OthersReserve();
      KeptReservations(old(D()), D(), table, live);
    }

    /** The re-reservation at the end of sleep, checked to be at the old address. */
    method Placeholder(ptr: Addr, ghost a: Alloc) returns (ghost strayKept: bool)
      requires Valid() && alloc.errorCode == 0 && ptr !in live
      requires ptr in table && table[ptr] == a.(asleep := true) && a.Shaped()
      modifies this`live, alloc, driver`reservations, driver`failures, driver`firstError, driver`wish
      ensures Valid() && driver.wish == ptr
      ensures driver.failures >= old(driver.failures) && (strayKept ==> driver.failures > old(driver.failures))
      ensures alloc.errorCode == 0 ==>
        && live == old(live) + {ptr} && !strayKept && ptr !in old(driver.reservations)
        && driver.reservations == old(driver.reservations)[ptr := a.size]
      ensures alloc.errorCode != 0 ==> live == old(live)
      ensures alloc.errorCode != 0 && !strayKept ==> driver.reservations == old(driver.reservations)
    {
      strayKept := false;
      var status, reserved, stray := alloc.ReserveAddress(table[ptr].size, 0, ptr);
      if status == 0 && reserved == ptr {
        PlaceholderHeld(old(D()), D(), table, live, ptr);
        live := live + {ptr};
        return;
      }
      KeptReservations(old(D()), D(), table, live);
      if status == 0 {
        strayKept := GiveBack(reserved, table[ptr].size, old(driver.reservations));
      } else {
        alloc.errorCode := status;
      }
    }

    /** Frees a range that is not the one asked for; whether that succeeds is not looked at. */
    method GiveBack(reserved: Addr, size: nat, ghost before: map<Addr, nat>) returns (ghost kept: bool)
      requires Valid() && reserved !in before && driver.reservations == before[reserved := size] && live <= before.Keys
      modifies alloc, driver`reservations, driver`failures, driver`firstError
      ensures Valid() && alloc.errorCode == 1
      ensures driver.failures == old(driver.failures) + if kept then 1 else 0
      ensures !kept ==> driver.reservations == before
    {
      assert forall c :: c in live ==> Held(D(), c, table[c]) && c != reserved;
      var status := driver.AddressFree(reserved, size);
      kept := status != 0;
      KeepTables(old(D()), D(), table, table, live);
      assert !kept ==> driver.reservations == before;
      alloc.errorCode := 1;
    }

    /** Wake of one sleeping allocation: fresh memory is mapped into its placeholder. After a clean
        rollback it is still asleep; any other failure loses it. */
    method Wake(ptr: Addr) returns (ok: bool, ghost outcome: Outcome)
      requires Valid() && ptr in live && table[ptr].asleep
      modifies this, alloc, driver`handles, driver`nextHandle, driver`mappings, driver`failures, driver`firstError, driver`memory
      ensures Valid() && alloc.errorCode == 0 && (ok <==> outcome.Mapped?)
      ensures Calls(old(alloc.errorCode), outcome, old(driver.failures), driver.failures)
      ensures ok ==>
        && live == old(live) && leaked == old(leaked)
        && table == old(table)[ptr := table[ptr]]
        && table[ptr].size == old(table)[ptr].size && table[ptr].sizes == old(table)[ptr].sizes
        && IsMapped(old(driver.handles), old(driver.mappings), driver.handles, driver.mappings, driver.memory, ptr, table[ptr])
      ensures Keeps(old(driver.memory), driver.memory, old(driver.handles), old(driver.mappings))
      ensures !ok ==> table == old(table)
      ensures outcome == RolledBack(true) ==>
        && live == old(live) && driver.handles == old(driver.handles) && driver.mappings == old(driver.mappings)
      ensures !ok && outcome != RolledBack(true) ==> live == old(live) - {ptr}
    {
      assert Held(D(), ptr, table[ptr]);
      outcome := Attach(ptr, table[ptr].size, table[ptr].sizes);
      ok := alloc.errorCode == 0;
      alloc.errorCode := 0;
      AlreadyIn(old(live), ptr);
    }

    /** Any sequence of calls by a caller that owns the allocations `owned`, and whether each reported
        no error. A call it could not make (with an address it does not own, or sleep of a sleeping
        allocation, or wake of an awake one) is skipped. */
    method Run(ops: seq<Op>, owned: set<Addr>) returns (kept: set<Addr>, oks: seq<bool>)
      requires Valid() && owned <= live
      requires forall op :: op in ops && op.MallocOp? ==> SumsFit(op.size, baseChunk, granularity)
      modifies this, alloc, driver
      ensures Valid() && kept <= live && |oks| == |ops| && (old(Backed()) ==> Backed())
      // an allocation that is not freed, and whose sleeps and wakes report no error, keeps its base
      // address, its size and its chunks
      ensures forall b :: b in owned && Undisturbed(ops, oks, b) ==> b in kept && Kept(old(table), table, b)
      // if nothing fails and everything is freed, no physical memory is left, and no address but those of
      // others: the reservations there were and those they have made since
      ensures owned == old(live) && !old(leaked) && AllOk(oks) ==>
        && kept == live && !leaked
        && (kept == {} ==> driver.handles == {} && driver.mappings == map[])
        && (old(Tidy()) ==> Tidy())
        && (old(Tidy()) && kept == {} ==> driver.reservations == driver.others)
    {
      kept, oks := owned, [];
      for i := 0 to |ops|
        invariant Valid() && kept <= live && |oks| == i && (old(Backed()) ==> Backed())
        invariant forall b :: b in owned && Undisturbed(ops[..i], oks, b) ==> b in kept && Kept(old(table), table, b)
        invariant owned == old(live) && !old(leaked) && AllOk(oks) ==>
          kept == live && !leaked && (old(Tidy()) ==> Tidy())
      {
        assert ops[i] in ops;
        var ok;
        kept, ok := Perform(ops[i], kept);
        assert ops[..i + 1] == ops[..i] + [ops[i]];
        OneMore(ops[..i], ops[i], oks, ok);
        oks := oks + [ok];
      }
      assert ops[..|ops|] == ops;
      if !leaked && live == {} {
        NothingLeft(D(), table);
      }
    }

    /** One call. */
    method Perform(op: Op, owned: set<Addr>) returns (kept: set<Addr>, ok: bool)
      requires Valid() && owned <= live
      requires op.MallocOp? ==> SumsFit(op.size, baseChunk, granularity)
      modifies this, alloc, driver
      ensures Valid() && kept <= live && (old(Backed()) ==> Backed())
      ensures forall b :: b in owned && Leaves(op, ok, b) ==> b in kept && Kept(old(table), table, b)
      ensures ok && owned == old(live) ==> kept == live && leaked == old(leaked) && (old(Tidy()) ==> Tidy())
    {
      match op
      case MallocOp(size) => kept, ok := PerformMalloc(size, owned);
      case FreeOp(ptr) => kept, ok := PerformFree(ptr, owned);
      case SleepOp(ptr) => kept, ok := PerformSleep(ptr, owned);
      case WakeOp(ptr) => kept, ok := PerformWake(ptr, owned);
    }

    method PerformMalloc(size: nat, owned: set<Addr>) returns (kept: set<Addr>, ok: bool)
      requires Valid() && owned <= live && SumsFit(size, baseChunk, granularity)
      modifies this, alloc, driver
      ensures Valid() && kept <= live && (old(Backed()) ==> Backed())
      ensures forall b :: b in owned ==> b in kept && Kept(old(table), table, b)
      ensures ok && owned == old(live) ==> kept == live && leaked == old(leaked) && (old(Tidy()) ==> Tidy())
    {
      var ptr := Malloc(size);
      ok := ptr != 0;
      kept := if ok then owned + {ptr} else owned;
      UsableKept(old(D()), old(driver.memory), driver.memory, old(table), old(live));
      if ok {
        RestWithOne(old(driver.reservations), old(live), driver.others, ptr, table[ptr].size);
      }
    }

    method PerformFree(ptr: Addr, owned: set<Addr>) returns (kept: set<Addr>, ok: bool)
      requires Valid() && owned <= live
      modifies this, alloc, driver
      ensures Valid() && kept <= live && (old(Backed()) ==> Backed())
      ensures forall b :: b in owned && b != ptr ==> b in kept && Kept(old(table), table, b)
      ensures ok && owned == old(live) ==> kept == live && leaked == old(leaked) && (old(Tidy()) ==> Tidy())
    {
      kept, ok := owned, true;
      if ptr in owned {
        ghost var clean := Free(ptr, table[ptr].size);
        ok := alloc.errorCode == 0;
        kept := owned - {ptr};
        if old(Backed()) {
          UsableStill(driver.memory, old(table), old(live), table, live);
        }
        if ok {
          RestWithoutOne(old(driver.reservations), old(live), driver.others, ptr);
        }
      }
    }

    method PerformSleep(ptr: Addr, owned: set<Addr>) returns (kept: set<Addr>, ok: bool)
      requires Valid() && owned <= live
      modifies this, alloc, driver
      ensures Valid() && kept <= live && (old(Backed()) ==> Backed())
      ensures forall b :: b in owned && (ok || b != ptr) ==> b in kept && Kept(old(table), table, b)
      ensures ok && owned == old(live) ==> kept == live && leaked == old(leaked) && (old(Tidy()) ==> Tidy())
    {
      kept, ok := owned, true;
      if ptr in owned && !table[ptr].asleep {
        assert forall c :: c in live ==> Held(D(), c, table[c]);
        ghost var taken, stray;
        ok, taken, stray := Sleep(ptr);
        kept := if ok then owned else owned - {ptr};
        if old(Backed()) {
          UsableStill(driver.memory, old(table), old(live), table, live);
        }
        if ok {
          RestWithTaken(old(driver.reservations), old(live), old(driver.others), taken);
        }
      }
    }

    method PerformWake(ptr: Addr, owned: set<Addr>) returns (kept: set<Addr>, ok: bool)
      requires Valid() && owned <= live
      modifies this, alloc, driver
      ensures Valid() && kept <= live && (old(Backed()) ==> Backed())
      ensures forall b :: b in owned && (ok || b != ptr) ==> b in kept && Kept(old(table), table, b)
      ensures ok && owned == old(live) ==> kept == live && leaked == old(leaked) && (old(Tidy()) ==> Tidy())
    {
      kept, ok := owned, true;
      if ptr in owned && table[ptr].asleep {
        ghost var outcome;
        ok, outcome := Wake(ptr);
        UsableKept(old(D()), old(driver.memory), driver.memory, old(table), old(live));
        kept := if ok then owned else owned - {ptr};
      }
    }
  }

  datatype Op = MallocOp(size: nat) | FreeOp(ptr: Addr) | SleepOp(ptr: Addr) | WakeOp(ptr: Addr)

  /** A call that does not free b and, if it is a sleep or a wake of b, reports no error. */
  predicate Leaves(op: Op, ok: bool, b: Addr) {
    op != FreeOp(b) && (op == SleepOp(b) || op == WakeOp(b) ==> ok)
  }

  ghost predicate Undisturbed(ops: seq<Op>, oks: seq<bool>, b: Addr)
    requires |oks| == |ops|
  {
    forall i :: 0 <= i < |ops| ==> Leaves(ops[i], oks[i], b)
  }

  predicate AllOk(oks: seq<bool>) {
    forall i :: 0 <= i < |oks| ==> oks[i]
  }

  lemma OneMore(ops: seq<Op>, op: Op, oks: seq<bool>, ok: bool)
    requires |oks| == |ops|
    ensures AllOk(oks + [ok]) ==> AllOk(oks) && ok
    ensures forall b :: Undisturbed(ops + [op], oks + [ok], b) ==> Undisturbed(ops, oks, b) && Leaves(op, ok, b)
  {
    var ops', oks' := ops + [op], oks + [ok];
    assert ops'[|ops|] == op && oks'[|oks|] == ok;
    assert forall i :: 0 <= i < |ops| ==> ops'[i] == ops[i] && oks'[i] == oks[i];
  }

  /** An allocation is still recorded at the same base, with the same size and chunks. */
  ghost predicate Kept(before: map<Addr, Alloc>, after: map<Addr, Alloc>, b: Addr) {
    b in before && b in after && after[b].size == before[b].size && after[b].sizes == before[b].sizes
  }

  /** When every allocation has been freed and no failed call left memory behind, the driver holds no
      handle and no mapping. */
  lemma NothingLeft(d: Tables, table: map<Addr, Alloc>)
    requires Accounted(d, table, {})
    ensures d.handles == {} && d.mappings == map[]
  {
    assert forall h: Handle :: !Owned(table, {}, h);
    assert forall m: Addr :: !Within(table, {}, m);
  }
}
