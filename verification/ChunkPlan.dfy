/** The size computations of the ROCm allocator, in 64-bit unsigned arithmetic: the aligned size,
    the aligned chunk size, the number of chunks and the size of each chunk. */
module ChunkPlan {
  import opened Arithmetic

  const MODULUS: nat := 0x1_0000_0000_0000_0000
  const MEGABYTE: nat := 1024 * 1024
  const DEFAULT_CHUNK: nat := 256 * MEGABYTE

  /** 64-bit wrap-around. */
  function Wrap(x: int): (r: nat)
    ensures r < MODULUS
    ensures 0 <= x < MODULUS ==> r == x
  {
    x % MODULUS
  }

  // ---- the configured chunk size ----

  /** VLLM_ROCM_SLEEP_MEM_CHUNK_SIZE: absent, not a number in range, or a number of megabytes. */
  datatype Setting = Unset | Unparsable | Megabytes(value: nat)

  function BaseChunk(env: Setting): (bytes: nat)
    requires env.Megabytes? ==> env.value < MODULUS
    ensures 0 < bytes < MODULUS && bytes % MEGABYTE == 0
    ensures env.Megabytes? && 0 < env.value * MEGABYTE < MODULUS ==> bytes == env.value * MEGABYTE
    ensures !(env.Megabytes? && 0 < env.value * MEGABYTE < MODULUS) ==> bytes == DEFAULT_CHUNK
  {
    if !env.Megabytes? then DEFAULT_CHUNK
    else if env.value == 0 then DEFAULT_CHUNK
    else if env.value > (MODULUS - 1) / MEGABYTE then DEFAULT_CHUNK
    else Wrap(env.value * MEGABYTE)
  }

  // ---- rounding up ----

  function RoundUp(x: nat, granularity: nat): nat
    requires granularity > 0
  {
    var quotient: nat := Wrap(x + granularity - 1) / granularity;
    quotient * granularity
  }

  /** Without wrap-around the result is the least multiple that is not below x. */
  lemma RoundUpIsLeast(x: nat, g: nat)
    requires g > 0 && x + g - 1 < MODULUS
    ensures x <= RoundUp(x, g) < x + g
    ensures RoundUp(x, g) % g == 0
    ensures x > 0 ==> RoundUp(x, g) > 0
  {
    var y := x + g - 1;
    assert y == y / g * g + y % g;
    DivModUnique(y / g, 0, g);
  }

  /** With wrap-around the result is 0. */
  lemma RoundUpWraps(x: nat, g: nat)
    requires 0 < g < MODULUS && x < MODULUS <= x + g - 1
    ensures RoundUp(x, g) == 0
  {
    var y := x + g - 1 - MODULUS;
    assert Wrap(x + g - 1) == y;
    DivModUnique(0, y, g);
  }

  // ---- the chunks ----

  function NumChunks(aligned: nat, chunk: nat): nat
    requires chunk > 0
  {
    Wrap(aligned + chunk - 1) / chunk
  }

  function Min(a: nat, b: nat): nat {
    if a < b then a else b
  }

  function ChunkSize(aligned: nat, chunk: nat, i: nat): nat {
    Min(Wrap(aligned - Wrap(i * chunk)), chunk)
  }

  function Chunks(aligned: nat, chunk: nat): (sizes: seq<nat>)
    requires chunk > 0
  {
    seq(NumChunks(aligned, chunk), i requires i >= 0 => ChunkSize(aligned, chunk, i))
  }

  function Sum(sizes: seq<nat>): nat {
    if sizes == [] then 0 else Sum(sizes[..|sizes| - 1]) + sizes[|sizes| - 1]
  }

  /** Where chunk i starts: the loops add up the sizes of the chunks before it. */
  function Offset(sizes: seq<nat>, i: nat): nat
    requires i <= |sizes|
  {
    Sum(sizes[..i])
  }

  lemma OffsetStep(sizes: seq<nat>, i: nat)
    requires i < |sizes|
    ensures Offset(sizes, i + 1) == Offset(sizes, i) + sizes[i]
  {
    assert sizes[..i + 1][..i] == sizes[..i];
  }

  ghost predicate NoWrap(aligned: nat, chunk: nat) {
    aligned + chunk - 1 < MODULUS
  }

  /** Every chunk before the last starts inside the region, so the subtraction at line 414 does not
      underflow, and the last one reaches its end. */
  lemma ChunkCount(aligned: nat, chunk: nat)
    requires chunk > 0 && NoWrap(aligned, chunk)
    ensures
      var n := NumChunks(aligned, chunk);
      && aligned <= n * chunk < aligned + chunk
      && forall i: nat :: i < n ==> i * chunk < aligned
  {
    var y := aligned + chunk - 1;
    var n := NumChunks(aligned, chunk);
    assert y == y / chunk * chunk + y % chunk;
    forall i: nat | i < n
      ensures i * chunk < aligned
    {
      MulMono(i, n - 1, chunk);
      assert (n - 1) * chunk == n * chunk - chunk;
    }
  }

  function Start(i: nat, chunk: nat): nat {
    i * chunk
  }

  /** Sizes cut from the front of a region, each as large as allowed. */
  ghost predicate Cut(sizes: seq<nat>, aligned: nat, chunk: nat) {
    forall j: nat :: j < |sizes| ==> Start(j, chunk) < aligned && sizes[j] == Min(aligned - Start(j, chunk), chunk)
  }

  lemma {:induction false} CutOffsets(sizes: seq<nat>, aligned: nat, chunk: nat, i: nat)
    requires Cut(sizes, aligned, chunk) && i <= |sizes|
    ensures Offset(sizes, i) == Min(Start(i, chunk), aligned)
  {
    if i > 0 {
      CutOffsets(sizes, aligned, chunk, i - 1);
      OffsetStep(sizes, i - 1);
      NextStart(i - 1, chunk);
    }
  }

  lemma NextStart(i: nat, chunk: nat)
    ensures Start(i + 1, chunk) == Start(i, chunk) + chunk
  {
  }

  lemma ChunksAreCut(aligned: nat, chunk: nat)
    requires chunk > 0 && NoWrap(aligned, chunk)
    ensures Cut(Chunks(aligned, chunk), aligned, chunk)
  {
    forall j: nat | j < |Chunks(aligned, chunk)|
      ensures Start(j, chunk) < aligned && Chunks(aligned, chunk)[j] == Min(aligned - Start(j, chunk), chunk)
    {
      ChunkSizeIs(aligned, chunk, j);
    }
  }

  lemma ChunkSizeIs(aligned: nat, chunk: nat, i: nat)
    requires chunk > 0 && NoWrap(aligned, chunk) && i < NumChunks(aligned, chunk)
    ensures i * chunk < aligned
    ensures Chunks(aligned, chunk)[i] == Min(aligned - i * chunk, chunk)
  {
    ChunkCount(aligned, chunk);
    var start := i * chunk;
    assert start < aligned;
    assert Wrap(start) == start && Wrap(aligned - start) == aligned - start;
  }

  /** The plan: what the chunks of an allocation must be. */
  ghost predicate Tiles(sizes: seq<nat>, aligned: nat, chunk: nat, granularity: nat)
    requires granularity > 0
  {
    && (forall i :: 0 <= i < |sizes| ==> 0 < sizes[i] <= chunk && sizes[i] % granularity == 0)
    && (forall i: nat :: i < |sizes| ==> Offset(sizes, i) == i * chunk)
    && Sum(sizes) == aligned
  }

  /** Without wrap-around the chunks are positive multiples of the granularity, no larger than the
      chunk size, each starting at its index times the chunk size, and together the region. */
  lemma ChunksTile(aligned: nat, chunk: nat, granularity: nat)
    requires granularity > 0 && chunk > 0 && NoWrap(aligned, chunk)
    requires aligned % granularity == 0 && chunk % granularity == 0
    ensures Tiles(Chunks(aligned, chunk), aligned, chunk, granularity)
  {
    var sizes, n := Chunks(aligned, chunk), NumChunks(aligned, chunk);
    ChunksAreCut(aligned, chunk);
    forall i: nat | i < n
      ensures 0 < sizes[i] <= chunk && sizes[i] % granularity == 0 && Offset(sizes, i) == i * chunk
    {
      ChunkSizeIs(aligned, chunk, i);
      CutOffsets(sizes, aligned, chunk, i);
      MultipleOfMultiple(i, chunk, granularity);
      DifferenceOfMultiples(aligned, i * chunk, granularity);
    }
    ChunkCount(aligned, chunk);
    CutOffsets(sizes, aligned, chunk, n);
    assert sizes[..n] == sizes;
  }

  lemma MultipleOfMultiple(i: nat, x: nat, g: nat)
    requires g > 0 && x % g == 0
    ensures i * x % g == 0
  {
    assert x == x / g * g;
    assert i * x == i * (x / g) * g;
    DivModUnique(i * (x / g), 0, g);
  }

  lemma DifferenceOfMultiples(x: nat, y: nat, g: nat)
    requires g > 0 && x % g == 0 && y % g == 0 && y <= x
    ensures (x - y) % g == 0
  {
    assert x == x / g * g && y == y / g * g;
    var k := x / g - y / g;
    assert x - y == k * g;
    NonNegativeFactor(k, g);
    DivModUnique(k, 0, g);
  }

  lemma NonNegativeFactor(k: int, g: nat)
    requires g > 0 && k * g >= 0
    ensures k >= 0
  {
  }

  // ---- exactly when the plan is right ----

  /** The region covers the request and the chunks tile it. */
  ghost predicate PlanOk(size: nat, base: nat, granularity: nat)
    requires granularity > 0
  {
    var aligned, chunk := RoundUp(size, granularity), RoundUp(base, granularity);
    && aligned >= size && aligned % granularity == 0
    && chunk > 0
    && Tiles(Chunks(aligned, chunk), aligned, chunk, granularity)
  }

  /** Neither rounding up nor the chunk count wraps around. */
  predicate SumsFit(size: nat, base: nat, granularity: nat)
    requires granularity > 0
  {
    && size + granularity - 1 < MODULUS
    && base + granularity - 1 < MODULUS
    && RoundUp(size, granularity) + RoundUp(base, granularity) - 1 < MODULUS
  }

  /** The plan of a non-empty request is right if and only if none of the three sums wraps: a wrapped
      aligned size is 0, a wrapped chunk size is 0, and a wrapped count gives no chunk at all. */
  lemma PlanExactly(size: nat, base: nat, granularity: nat)
    requires 0 < granularity < MODULUS && 0 < size < MODULUS && 0 < base < MODULUS
    ensures PlanOk(size, base, granularity) <==> SumsFit(size, base, granularity)
  {
    var aligned, chunk := RoundUp(size, granularity), RoundUp(base, granularity);
    if size + granularity - 1 >= MODULUS {
      RoundUpWraps(size, granularity);
    } else if base + granularity - 1 >= MODULUS {
      RoundUpWraps(base, granularity);
    } else {
      RoundUpIsLeast(size, granularity);
      RoundUpIsLeast(base, granularity);
      if aligned + chunk - 1 < MODULUS {
        ChunksTile(aligned, chunk, granularity);
      } else {
        NoChunks(aligned, chunk);
      }
    }
  }

  lemma NoChunks(aligned: nat, chunk: nat)
    requires 0 < chunk < MODULUS && 0 < aligned < MODULUS <= aligned + chunk - 1
    ensures Chunks(aligned, chunk) == []
  {
    var y := aligned + chunk - 1 - MODULUS;
    assert Wrap(aligned + chunk - 1) == y;
    DivModUnique(0, y, chunk);
  }

  /** The filling loop of the allocator: it writes the size of every chunk. */
  method FillChunks(aligned: nat, chunk: nat) returns (sizes: array<nat>)
    requires chunk > 0
    ensures sizes[..] == Chunks(aligned, chunk)
  {
    var n := NumChunks(aligned, chunk);
    sizes := new nat[n];
    for i := 0 to n
      invariant forall j :: 0 <= j < i ==> sizes[j] == ChunkSize(aligned, chunk, j)
    {
      sizes[i] := Min(Wrap(aligned - Wrap(i * chunk)), chunk);
    }
  }
}
