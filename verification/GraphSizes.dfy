/** The CUDA-graph padding table: which captured batch size a batch is padded to. */
module GraphSizes {
  import opened Options

  /** r is the least captured size (or 0) that is not below the batch size. */
  ghost predicate IsPad(sizes: seq<nat>, bs: nat, r: nat) {
    && (r == 0 || r in sizes)
    && bs <= r
    && (bs == 0 ==> r == 0)
    && forall i :: 0 <= i < |sizes| && bs <= sizes[i] ==> r <= sizes[i]
  }

  lemma PadUnique(sizes: seq<nat>, bs: nat, r: nat, r': nat)
    requires IsPad(sizes, bs, r) && IsPad(sizes, bs, r')
    ensures r == r'
  {
  }

  /** Padding is monotone. */
  lemma PadMonotone(sizes: seq<nat>, bs: nat, bs': nat, r: nat, r': nat)
    requires bs <= bs' && IsPad(sizes, bs, r) && IsPad(sizes, bs', r')
    ensures r <= r'
  {
    if r' != 0 {
      var i :| 0 <= i < |sizes| && sizes[i] == r';
    }
  }

  /** Padding a padded size changes nothing. */
  lemma PadIdempotent(sizes: seq<nat>, bs: nat, r: nat)
    requires IsPad(sizes, bs, r)
    ensures IsPad(sizes, r, r)
  {
  }

  ghost predicate Descending(s: seq<nat>) {
    forall i, j :: 0 <= i < j < |s| ==> s[i] >= s[j]
  }

  /** list.sort(reverse=True). */
  method SortDescending(s: seq<nat>) returns (r: seq<nat>)
    ensures Descending(r) && multiset(r) == multiset(s)
  {
    r := [];
    for i := 0 to |s|
      invariant Descending(r) && multiset(r) == multiset(s[..i])
    {
      assert s[..i + 1] == s[..i] + [s[i]];
      r := InsertDescending(r, s[i]);
    }
    assert s[..|s|] == s;
  }

  method InsertDescending(s: seq<nat>, x: nat) returns (r: seq<nat>)
    requires Descending(s)
    ensures Descending(r) && multiset(r) == multiset(s) + multiset{x}
  {
    var k := 0;
    while k < |s| && s[k] > x
      invariant k <= |s| && forall j :: 0 <= j < k ==> s[j] > x
    {
      k := k + 1;
    }
    r := s[..k] + [x] + s[k..];
    InsertAt(s, k, x);
  }

  lemma InsertAt(s: seq<nat>, k: nat, x: nat)
    requires Descending(s) && k <= |s|
    requires forall j :: 0 <= j < k ==> s[j] > x
    requires k < |s| ==> s[k] <= x
    ensures Descending(s[..k] + [x] + s[k..])
    ensures multiset(s[..k] + [x] + s[k..]) == multiset(s) + multiset{x}
  {
    var r := s[..k] + [x] + s[k..];
    forall i, j | 0 <= i < j < |r|
      ensures r[i] >= r[j]
    {
      assert r[i] == if i < k then s[i] else if i == k then x else s[i - 1];
      assert r[j] == if j < k then s[j] else if j == k then x else s[j - 1];
    }
    SplitMultiset(s, k, x);
  }

  lemma SplitMultiset(s: seq<nat>, k: nat, x: nat)
    requires k <= |s|
    ensures multiset(s[..k] + [x] + s[k..]) == multiset(s) + multiset{x}
  {
    assert s == s[..k] + s[k..];
  }

  /** list(set(s)): the same elements, each once. */
  method Dedup(s: seq<nat>) returns (r: seq<nat>)
    ensures forall x :: x in r <==> x in s
    ensures forall x :: multiset(r)[x] <= 1
  {
    r := [];
    for i := 0 to |s|
      invariant forall x :: x in r <==> x in s[..i]
      invariant forall x :: multiset(r)[x] <= 1
    {
      if s[i] !in r {
        r := r + [s[i]];
      }
    }
  }

  /** The start of the k-th interval below the k-th size: the next size, or 0 after the last. */
  function Bound(sizes: seq<nat>, k: nat): nat
    requires k <= |sizes|
  {
    if k < |sizes| then sizes[k] else 0
  }

  class CompilationConfig {
    var captureSizes: Option<seq<nat>>
    var maxCaptureSize: nat
    var bsToPadded: array<nat>

    constructor (captureSizes: Option<seq<nat>>)
      ensures this.captureSizes == captureSizes
    {
      this.captureSizes := captureSizes;
      maxCaptureSize := 0;
      bsToPadded := new nat[1];
    }

    /** The table maps every batch size up to the largest captured one to its padded size. */
    ghost predicate TableOk()
      reads this, bsToPadded
    {
      && captureSizes.Some?
      && maxCaptureSize == Bound(captureSizes.value, 0)
      && (forall i :: 0 <= i < |captureSizes.value| ==> captureSizes.value[i] <= maxCaptureSize)
      && bsToPadded.Length == maxCaptureSize + 1
      && forall bs :: 0 <= bs <= maxCaptureSize ==> IsPad(captureSizes.value, bs, bsToPadded[bs])
    }

    /** init_with_cudagraph_sizes, for any list: unsorted, with duplicates, or empty. Sizes given by
        the user win over the ones passed in, and lose their duplicates. */
    method InitWithCudagraphSizes(sizes: seq<nat>)
      modifies this
      ensures TableOk() && fresh(bsToPadded) && Descending(captureSizes.value)
      ensures old(captureSizes).None? ==> multiset(captureSizes.value) == multiset(sizes)
      ensures old(captureSizes).Some? ==>
        && (forall x :: x in captureSizes.value <==> x in old(captureSizes).value)
        && forall x :: multiset(captureSizes.value)[x] <= 1
    {
      var list := sizes;
      if captureSizes.Some? {
        list := Dedup(captureSizes.value);
      }
      var sorted := SortDescending(list);
      SameElements(list, sorted);
      captureSizes := Some(sorted);
      maxCaptureSize := if |sorted| > 0 then sorted[0] else 0;
      bsToPadded := new nat[maxCaptureSize + 1](_ => 0);
      for k := 0 to |sorted|
        invariant captureSizes == Some(sorted) && maxCaptureSize == Bound(sorted, 0)
        invariant fresh(bsToPadded) && bsToPadded.Length == maxCaptureSize + 1
        invariant forall bs :: Bound(sorted, k) <= bs < maxCaptureSize ==> IsPad(sorted, bs, bsToPadded[bs])
        modifies bsToPadded
      {
        FillInterval(k);
      }
      bsToPadded[maxCaptureSize] := maxCaptureSize;
      assert |sorted| > 0 ==> sorted[0] in sorted;
    }

    /** One round of the outer loop: fills the interval below the k-th size. */
    method FillInterval(k: nat)
      requires captureSizes.Some? && Descending(captureSizes.value) && k < |captureSizes.value|
      requires maxCaptureSize == Bound(captureSizes.value, 0) && bsToPadded.Length == maxCaptureSize + 1
      modifies bsToPadded
      ensures forall bs :: Bound(captureSizes.value, k + 1) <= bs < captureSizes.value[k] ==>
        IsPad(captureSizes.value, bs, bsToPadded[bs])
      ensures forall bs :: 0 <= bs < bsToPadded.Length && !(Bound(captureSizes.value, k + 1) <= bs < captureSizes.value[k]) ==>
        bsToPadded[bs] == old(bsToPadded[bs])
    {
      var start, end := Bound(captureSizes.value, k + 1), captureSizes.value[k];
      assert end <= maxCaptureSize;
      for bs := start to end
        invariant forall b :: start <= b < bs ==> bsToPadded[b] == if b == start then start else end
        invariant forall b :: 0 <= b < bsToPadded.Length && !(start <= b < bs) ==> bsToPadded[b] == old(bsToPadded[b])
      {
        bsToPadded[bs] := if bs == start then start else end;
      }
    }

    /** pad_for_cudagraph: a table look-up; a batch beyond the largest captured size is an error. */
    method PadForCudagraph(bs: nat) returns (r: Option<nat>)
      requires TableOk()
      ensures r.Some? <==> bs <= maxCaptureSize
      ensures r.Some? ==> IsPad(captureSizes.value, bs, r.value)
    {
      r := if bs < bsToPadded.Length then Some(bsToPadded[bs]) else None;
    }
  }

  lemma SameElements(s: seq<nat>, r: seq<nat>)
    requires multiset(s) == multiset(r)
    ensures |s| == |r| && forall x :: x in s <==> x in r
  {
    assert |multiset(s)| == |s| && |multiset(r)| == |r|;
    assert forall x :: x in s <==> x in multiset(s);
    assert forall x :: x in r <==> x in multiset(r);
  }

  // ---- the default capture sizes ----

  /** The multiples of 8 from 8 to n: range(8, n + 1, 8). */
  function MultiplesOf8(n: nat): (s: seq<nat>)
    ensures forall x :: x in s <==> 8 <= x <= n && x % 8 == 0
  {
    if n < 8 then []
    else if n % 8 == 0 then MultiplesOf8(n - 1) + [n]
    else MultiplesOf8(n - 1)
  }

  function Filter(s: seq<nat>, keep: nat -> bool): (r: seq<nat>)
    ensures forall x :: x in r <==> x in s && keep(x)
  {
    if s == [] then []
    else
      var rest := Filter(s[1..], keep);
      assert s == [s[0]] + s[1..];
      if keep(s[0]) then [s[0]] + rest else rest
  }

  /** What the engine configuration says; `cudaGraphSizes` is the scheduler's list. */
  datatype Engine = Engine(cudaGraphSizes: seq<nat>, maxNumTokens: nat, tpSize: nat,
                           sequenceParallelism: bool, enforceEager: bool)

  /** One scheduler value asks for 1, 2, 4 and the multiples of 8 up to it, several for themselves. */
  predicate Candidate(e: Engine, x: nat) {
    if |e.cudaGraphSizes| == 1 then x in [1, 2, 4] || (8 <= x <= e.cudaGraphSizes[0] && x % 8 == 0)
    else x in e.cudaGraphSizes
  }

  /** The capture list of the V1 engine, or None where the source raises TypeError. Without a model
      that captures graphs it is empty. */
  function CaptureList(e: Engine): (r: Option<seq<nat>>)
    requires e.tpSize > 0
    ensures r.None? <==> !e.enforceEager && e.cudaGraphSizes == []
    ensures r.Some? ==> forall x: nat :: x in r.value <==>
      && !e.enforceEager && Candidate(e, x) && x <= e.maxNumTokens
      && (e.tpSize > 1 && e.sequenceParallelism ==> x % e.tpSize == 0)
  {
    if e.enforceEager then Some([])
    else if e.cudaGraphSizes == [] then None
    else
      var all := if |e.cudaGraphSizes| == 1 then [1, 2, 4] + MultiplesOf8(e.cudaGraphSizes[0]) else e.cudaGraphSizes;
      assert forall x: nat :: x in all <==> Candidate(e, x);
      var divisible :=
        if e.tpSize > 1 && e.sequenceParallelism then Filter(all, x => x % e.tpSize == 0) else all;
      Some(Filter(divisible, x => x <= e.maxNumTokens))
  }

  /** One scheduler value, and no sequence parallelism. */
  predicate SingleValue(e: Engine) {
    && e.tpSize > 0 && |e.cudaGraphSizes| == 1 && !e.enforceEager
    && !(e.tpSize > 1 && e.sequenceParallelism)
  }

  lemma NextMultipleOf8(bs: nat, max: nat) returns (x: nat)
    requires 4 < bs <= max && max % 8 == 0
    ensures x % 8 == 0 && 8 <= x && bs <= x <= max && x - bs <= 7
  {
    x := (bs + 7) / 8 * 8;
  }

  /** With one scheduler value and no sequence parallelism, padding wastes at most 7 slots for every
      batch size up to the largest captured one. */
  lemma WasteAtMost7(e: Engine, sizes: seq<nat>, max: nat, bs: nat, r: nat)
    requires SingleValue(e)
    requires forall x :: x in sizes <==> x in CaptureList(e).value
    requires max in sizes && bs <= max && IsPad(sizes, bs, r)
    ensures r - bs <= 7
  {
    if bs > 4 {
      assert max in CaptureList(e).value;
      var x := NextMultipleOf8(bs, max);
      assert x in CaptureList(e).value;
      var i :| 0 <= i < |sizes| && sizes[i] == x;
    } else if bs > 0 {
      var x := if bs == 3 then 4 else bs;
      assert x in sizes;
      var i :| 0 <= i < |sizes| && sizes[i] == x;
    }
  }

  /** With sequence parallelism, every padded size is a multiple of the tensor-parallel size. */
  lemma PaddedDivisible(e: Engine, sizes: seq<nat>, bs: nat, r: nat)
    requires e.tpSize > 1 && e.sequenceParallelism && CaptureList(e).Some?
    requires forall x :: x in sizes <==> x in CaptureList(e).value
    requires IsPad(sizes, bs, r)
    ensures r % e.tpSize == 0
  {
  }

  class VllmConfig {
    const engine: Engine
    const compilation: CompilationConfig

    constructor (engine: Engine, compilation: CompilationConfig)
      ensures this.engine == engine && this.compilation == compilation
    {
      this.engine := engine;
      this.compilation := compilation;
    }

    /** _set_cudagraph_sizes of the V1 engine. Sizes given by the user are captured as they are. */
    method SetCudagraphSizes() returns (raised: bool)
      requires engine.tpSize > 0
      modifies compilation
      ensures raised <==> CaptureList(engine).None?
      ensures !raised ==>
        && compilation.TableOk()
        && forall x :: x in compilation.captureSizes.value <==>
             x in (if old(compilation.captureSizes).Some? then old(compilation.captureSizes).value
                   else CaptureList(engine).value)
      // padding to the default sizes wastes at most 7 slots
      ensures !raised && old(compilation.captureSizes).None? && SingleValue(engine) ==>
        forall bs :: 0 <= bs <= compilation.maxCaptureSize ==> compilation.bsToPadded[bs] - bs <= 7
      // and gives multiples of the tensor-parallel size
      ensures !raised && old(compilation.captureSizes).None? && engine.tpSize > 1 && engine.sequenceParallelism ==>
        forall bs :: 0 <= bs <= compilation.maxCaptureSize ==> compilation.bsToPadded[bs] % engine.tpSize == 0
    {
      var list := CaptureList(engine);
      if list.None? {
        return true;
      }
      compilation.InitWithCudagraphSizes(list.value);
      if old(compilation.captureSizes).None? {
        DefaultsPadWell(list.value);
      }
      return false;
    }

    lemma DefaultsPadWell(list: seq<nat>)
      requires engine.tpSize > 0 && CaptureList(engine) == Some(list) && compilation.TableOk()
      requires multiset(compilation.captureSizes.value) == multiset(list)
      ensures forall x :: x in compilation.captureSizes.value <==> x in list
      ensures SingleValue(engine) ==>
        forall bs :: 0 <= bs <= compilation.maxCaptureSize ==> compilation.bsToPadded[bs] - bs <= 7
      ensures engine.tpSize > 1 && engine.sequenceParallelism ==>
        forall bs :: 0 <= bs <= compilation.maxCaptureSize ==> compilation.bsToPadded[bs] % engine.tpSize == 0
    {
      var sizes := compilation.captureSizes.value;
      SameElements(list, sizes);
      forall bs | 0 <= bs <= compilation.maxCaptureSize
        ensures SingleValue(engine) ==> compilation.bsToPadded[bs] - bs <= 7
        ensures engine.tpSize > 1 && engine.sequenceParallelism ==> compilation.bsToPadded[bs] % engine.tpSize == 0
      {
        var r := compilation.bsToPadded[bs];
        if engine.tpSize > 1 && engine.sequenceParallelism {
          PaddedDivisible(engine, sizes, bs, r);
        } else if SingleValue(engine) && sizes != [] {
          assert sizes[0] in sizes;
          WasteAtMost7(engine, sizes, compilation.maxCaptureSize, bs, r);
        }
      }
    }
  }
}
