/** The virtual memory driver as the allocator sees it: reservations of address ranges, live
    physical handles, and mappings of handles into reserved ranges. Every call may fail, and a call
    that fails changes nothing. */
module RocmDriver {

  type Addr = nat
  type Handle = nat

  datatype Mapping = Mapping(size: nat, handle: Handle)

  predicate Disjoint(a: Addr, n: nat, b: Addr, m: nat) {
    a + n <= b || b + m <= a
  }

  ghost predicate AllDisjoint(ranges: map<Addr, nat>) {
    forall a, b :: a in ranges && b in ranges && a != b ==> Disjoint(a, ranges[a], b, ranges[b])
  }

  /** The mappings that start inside a range. */
  ghost function Inside(mappings: map<Addr, Mapping>, base: Addr, size: nat): map<Addr, Mapping> {
    map m | m in mappings && base <= m < base + size :: mappings[m]
  }

  /** The address lies in a reservation. */
  ghost predicate Covered(reservations: map<Addr, nat>, m: Addr) {
    exists a :: a in reservations && a <= m < a + reservations[a]
  }

  lemma CoveredWithout(reservations: map<Addr, nat>, mappings: map<Addr, Mapping>, addr: Addr)
    requires forall m :: m in mappings ==> Covered(reservations, m)
    requires addr in reservations && !exists m :: m in mappings && addr <= m < addr + reservations[addr]
    ensures forall m :: m in mappings ==> Covered(reservations - {addr}, m)
    ensures Inside(mappings, addr, reservations[addr]) == map[]
  {
    forall m | m in mappings
      ensures Covered(reservations - {addr}, m)
    {
      var a :| a in reservations && a <= m < a + reservations[a];
      assert a in reservations - {addr};
    }
  }

  lemma CoveredWith(reservations: map<Addr, nat>, mappings: map<Addr, Mapping>, addr: Addr, size: nat)
    requires addr !in reservations && forall m :: m in mappings ==> Covered(reservations, m)
    ensures forall m :: m in mappings ==> Covered(reservations[addr := size], m)
  {
    forall m | m in mappings
      ensures Covered(reservations[addr := size], m)
    {
      var a :| a in reservations && a <= m < a + reservations[a];
      assert a in reservations[addr := size];
    }
  }

  /** What is behind the mappings: the size of every handle that was made, and the mappings, by their
      start, that the device may read and write and that hold zeros. */
  datatype Memory = Memory(sizes: map<Handle, nat>, accessible: set<Addr>, zeroed: set<Addr>)

  /** The mappings that lie inside a range. */
  ghost function Spanned(mappings: map<Addr, Mapping>, base: Addr, size: nat): set<Addr> {
    set m | m in mappings && base <= m && m + mappings[m].size <= base + size
  }

  /** The first error of two. */
  function First(error: int, status: int): int {
    if error != 0 then error else status
  }

  /** The environment's answer to a call: 0, or an error code. */
  method AnyStatus() returns (status: int)
    ensures status >= 0
  {
    status := *;
    if status < 0 {
      status := 0;
    }
  }

  method AnyNat() returns (n: nat)
  {
    var x: int := *;
    n := if x < 0 then -x else x;
  }

  class Driver {
    var reservations: map<Addr, nat>
    var handles: set<Handle>
    var mappings: map<Addr, Mapping>
    var nextHandle: Handle
    /** How many calls of this process have failed so far. */
    ghost var failures: nat
    /** The status of the first call that failed since this was cleared. */
    ghost var firstError: int
    ghost var memory: Memory
    /** The address that the last reservation asked for. */
    ghost var wish: Addr
    /** The reservations of other users of the address space. */
    ghost var others: map<Addr, nat>

    ghost predicate Valid()
      reads this
    {
      && AllDisjoint(reservations)
      && (forall a :: a in reservations ==> a > 0 && reservations[a] > 0)
      && (forall h :: h in handles ==> h < nextHandle)
      && (forall m :: m in mappings ==> Covered(reservations, m))
    }

    constructor ()
      ensures Valid() && reservations == map[] && handles == {} && mappings == map[] && others == map[]
    {
      reservations, handles, mappings, nextHandle, failures, others := map[], {}, map[], 0, 0, map[];
      firstError, memory, wish := 0, Memory(map[], {}, {}), 0;
    }

    /** cuMemCreate: a handle that is not live. */
    method MemCreate(size: nat) returns (status: int, handle: Handle)
      requires Valid()
      modifies this`handles, this`nextHandle, this`failures, this`firstError, this`memory
      ensures Valid() && status >= 0
      ensures failures == old(failures) + (if status != 0 then 1 else 0) && firstError == First(old(firstError), status)
      ensures status == 0 ==>
        && handle !in old(handles) && handles == old(handles) + {handle}
        && memory == old(memory).(sizes := old(memory).sizes[handle := size])
      ensures status != 0 ==> handles == old(handles) && memory == old(memory)
    {
      handle := nextHandle;
      status := AnyStatus();
      if status == 0 {
        handles := handles + {handle};
        memory := memory.(sizes := memory.sizes[handle := size]);
        nextHandle := nextHandle + 1;
      }
      failures, firstError := failures + (if status != 0 then 1 else 0), First(firstError, status);
    }

    /** cuMemRelease. */
    method MemRelease(handle: Handle) returns (status: int)
      requires Valid()
      modifies this`handles, this`failures, this`firstError
      ensures Valid() && status >= 0
      ensures failures == old(failures) + (if status != 0 then 1 else 0) && firstError == First(old(firstError), status)
      ensures status == 0 ==> handle in old(handles) && handles == old(handles) - {handle}
      ensures status != 0 ==> handles == old(handles)
    {
      status := AnyStatus();
      if status == 0 {
        if handle in handles {
          handles := handles - {handle};
        } else {
          status := 1;
        }
      }
      failures, firstError := failures + (if status != 0 then 1 else 0), First(firstError, status);
    }

    /** cuMemMap: the address is reserved and nothing is mapped at it yet. What is mapped cannot be accessed
        yet, and holds anything. */
    method MemMap(addr: Addr, size: nat, handle: Handle) returns (status: int)
      requires Valid()
      modifies this`mappings, this`failures, this`firstError, this`memory
      ensures Valid() && status >= 0
      ensures failures == old(failures) + (if status != 0 then 1 else 0) && firstError == First(old(firstError), status)
      ensures status == 0 ==>
        && addr !in old(mappings) && handle in handles && mappings == old(mappings)[addr := Mapping(size, handle)]
        && memory == Memory(old(memory).sizes, old(memory).accessible - {addr}, old(memory).zeroed - {addr})
      ensures status != 0 ==> mappings == old(mappings) && memory == old(memory)
    {
      status := AnyStatus();
      if status == 0 {
        if addr !in mappings && handle in handles
           && exists a :: a in reservations && a <= addr < a + reservations[a] {
          mappings := mappings[addr := Mapping(size, handle)];
          memory := Memory(memory.sizes, memory.accessible - {addr}, memory.zeroed - {addr});
        } else {
          status := 1;
        }
      }
      failures, firstError := failures + (if status != 0 then 1 else 0), First(firstError, status);
    }

    /** cuMemUnmap: the whole mapping at the address. */
    method MemUnmap(addr: Addr, size: nat) returns (status: int)
      requires Valid()
      modifies this`mappings, this`failures, this`firstError
      ensures Valid() && status >= 0
      ensures failures == old(failures) + (if status != 0 then 1 else 0) && firstError == First(old(firstError), status)
      ensures status == 0 ==>
        addr in old(mappings) && old(mappings)[addr].size == size && mappings == old(mappings) - {addr}
      ensures status != 0 ==> mappings == old(mappings)
    {
      status := AnyStatus();
      if status == 0 {
        if addr in mappings && mappings[addr].size == size {
          mappings := mappings - {addr};
        } else {
          status := 1;
        }
      }
      failures, firstError := failures + (if status != 0 then 1 else 0), First(firstError, status);
    }

    /** cuMemAddressReserve: any free, suitably aligned range; `hint` is only a wish. */
    method AddressReserve(size: nat, alignment: nat, hint: Addr) returns (status: int, addr: Addr)
      requires Valid()
      modifies this`reservations, this`failures, this`firstError, this`wish
      ensures Valid() && status >= 0 && wish == hint
      ensures failures == old(failures) + (if status != 0 then 1 else 0) && firstError == First(old(firstError), status)
      ensures status == 0 ==>
        && addr > 0 && size > 0 && addr !in old(reservations)
        && (alignment != 0 ==> addr % alignment == 0)
        && (forall a :: a in old(reservations) ==> Disjoint(addr, size, a, old(reservations)[a]))
        && reservations == old(reservations)[addr := size]
      ensures status != 0 ==> reservations == old(reservations)
    {
      wish := hint;
      addr := AnyNat();
      status := AnyStatus();
      if status == 0 {
        if size == 0 || addr == 0 || (alignment != 0 && addr % alignment != 0)
           || exists a :: a in reservations && !Disjoint(addr, size, a, reservations[a]) {
          status := 2;
        } else {
          assert addr in reservations ==> Disjoint(addr, size, addr, reservations[addr]);
          CoveredWith(reservations, mappings, addr, size);
          reservations := reservations[addr := size];
        }
      }
      failures, firstError := failures + (if status != 0 then 1 else 0), First(firstError, status);
    }

    /** cuMemAddressFree: a whole reservation with nothing mapped in it. */
    method AddressFree(addr: Addr, size: nat) returns (status: int)
      requires Valid()
      modifies this`reservations, this`failures, this`firstError
      ensures Valid() && status >= 0
      ensures failures == old(failures) + (if status != 0 then 1 else 0) && firstError == First(old(firstError), status)
      ensures status == 0 ==>
        && addr in old(reservations) && old(reservations)[addr] == size
        && Inside(mappings, addr, size) == map[]
        && reservations == old(reservations) - {addr}
      ensures status != 0 ==> reservations == old(reservations)
    {
      status := AnyStatus();
      if status == 0 {
        if addr in reservations && reservations[addr] == size
           && !exists m :: m in mappings && addr <= m < addr + size {
          CoveredWithout(reservations, mappings, addr);
          reservations := reservations - {addr};
        } else {
          status := 1;
        }
      }
      failures, firstError := failures + (if status != 0 then 1 else 0), First(firstError, status);
    }

    /** cuMemSetAccess: the device may read and write what is mapped in the range. */
    method MemSetAccess(addr: Addr, size: nat) returns (status: int)
      requires Valid()
      modifies this`failures, this`firstError, this`memory
      ensures Valid() && status >= 0
      ensures failures == old(failures) + (if status != 0 then 1 else 0) && firstError == First(old(firstError), status)
      ensures status == 0 ==>
        memory == old(memory).(accessible := old(memory).accessible + Spanned(mappings, addr, size))
      ensures status != 0 ==> memory == old(memory)
    {
      status := AnyStatus();
      if status == 0 {
        memory := memory.(accessible := memory.accessible + Spanned(mappings, addr, size));
      }
      failures, firstError := failures + (if status != 0 then 1 else 0), First(firstError, status);
    }

    /** hipMemset, of a range that the device may write. */
    method Memset(addr: Addr, value: int, size: nat) returns (status: int)
      requires Valid() && Spanned(mappings, addr, size) <= memory.accessible
      modifies this`failures, this`firstError, this`memory
      ensures Valid() && status >= 0
      ensures failures == old(failures) + (if status != 0 then 1 else 0) && firstError == First(old(firstError), status)
      ensures status == 0 ==>
        memory == old(memory).(zeroed := if value == 0 then old(memory).zeroed + Spanned(mappings, addr, size)
                                         else old(memory).zeroed - Spanned(mappings, addr, size))
      ensures status != 0 ==> memory == old(memory)
    {
      status := AnyStatus();
      if status == 0 {
        memory := memory.(zeroed := if value == 0 then memory.zeroed + Spanned(mappings, addr, size)
                                    else memory.zeroed - Spanned(mappings, addr, size));
      }
      failures, firstError := failures + (if status != 0 then 1 else 0), First(firstError, status);
    }

    /** A call that changes nothing tracked here: cuMemGetAllocationGranularity. */
    method OtherCall() returns (status: int)
      requires Valid()
      modifies this`failures, this`firstError
      ensures Valid() && status >= 0
      ensures failures == old(failures) + (if status != 0 then 1 else 0) && firstError == First(old(firstError), status)
    {
      status := AnyStatus();
      failures, firstError := failures + (if status != 0 then 1 else 0), First(firstError, status);
    }

    /** Another user of the address space reserves ranges at any moment. */
    method OthersReserve() returns (ghost taken: map<Addr, nat>)
      requires Valid()
      modifies this`reservations, this`failures, this`firstError, this`wish, this`others
      ensures Valid() && reservations == old(reservations) + taken && taken.Keys !! old(reservations).Keys
      ensures failures == old(failures) && firstError == old(firstError) && others == old(others) + taken
    {
      taken := map[];
      var rounds := AnyNat();
      for i := 0 to rounds
        invariant Valid() && others == old(others)
        invariant reservations == old(reservations) + taken && taken.Keys !! old(reservations).Keys
      {
        var size := AnyNat();
        var status, addr := AddressReserve(size, 0, 0);
        if status == 0 {
          taken := taken[addr := size];
        }
      }
      failures, firstError, others := old(failures), old(firstError), others + taken;
    }
  }
}
