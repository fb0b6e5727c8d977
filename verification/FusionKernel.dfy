/** The fusion operator: the tensor form, and the kernel form that addresses flat buffers, one
    program per (token, head) pair. */
module FusionKernel {
  import opened Arithmetic
  import opened Softmax

  function At2(i: nat, j: nat, rowStride: nat, colStride: nat): nat {
    i * rowStride + j * colStride
  }

  function At3(t: nat, h: nat, c: nat, tokenStride: nat, headStride: nat): nat {
    t * tokenStride + h * headStride + c
  }

  /** The index of program (t, h) in the launch grid. */
  function Row(t: nat, h: nat, heads: nat): nat {
    t * heads + h
  }

  /** A two-dimensional view of a flat buffer, as torch describes it by its strides. */
  datatype View2 = View2(buf: seq<real>, rows: nat, cols: nat, rowStride: nat, colStride: nat)
  {
    ghost predicate Valid() {
      forall i: nat, j: nat :: i < rows && j < cols ==> At2(i, j, rowStride, colStride) < |buf|
    }

    function Get(i: nat, j: nat): real
      requires Valid() && i < rows && j < cols
    {
      buf[At2(i, j, rowStride, colStride)]
    }

    /** The tensor with its two dimensions exchanged. */
    function Transpose(): (v: View2)
      requires Valid()
      ensures v.Valid() && v.rows == cols && v.cols == rows
      ensures forall i: nat, j: nat :: i < cols && j < rows ==> v.Get(i, j) == Get(j, i)
    {
      var v := View2(buf, cols, rows, colStride, rowStride);
      assert forall i: nat, j: nat :: i < cols && j < rows ==>
        At2(i, j, colStride, rowStride) == At2(j, i, rowStride, colStride);
      v
    }
  }

  /** A [tokens, heads, headSize] view of a flat buffer whose last stride is 1. */
  datatype View3 = View3(buf: seq<real>, tokens: nat, heads: nat, headSize: nat,
                         tokenStride: nat, headStride: nat)
  {
    ghost predicate Valid() {
      forall t: nat, h: nat, c: nat :: t < tokens && h < heads && c < headSize ==>
        At3(t, h, c, tokenStride, headStride) < |buf|
    }

    function At(t: nat, h: nat, c: nat): nat {
      At3(t, h, c, tokenStride, headStride)
    }

    function Get(t: nat, h: nat, c: nat): real
      requires Valid() && t < tokens && h < heads && c < headSize
    {
      buf[At(t, h, c)]
    }

    function Cells(): nat {
      tokens * heads * headSize
    }

    /** Every cell of the view lies where a contiguous tensor has it. */
    ghost predicate Contiguous() {
      forall t: nat, h: nat, c: nat :: t < tokens && h < heads && c < headSize ==>
        At(t, h, c) == Row(t, h, heads) * headSize + c
    }

    ghost predicate Dense() {
      IsDense(tokens, heads, headSize, tokenStride, headStride)
    }
  }

  /** The cells of a view with these sizes and strides fill as many places as there are cells, and no
      two share one. */
  ghost predicate IsDense(tokens: nat, heads: nat, size: nat, tokenStride: nat, headStride: nat) {
    && (forall t: nat, h: nat, c: nat :: t < tokens && h < heads && c < size ==>
          At3(t, h, c, tokenStride, headStride) < tokens * heads * size)
    && (forall i: nat :: i < tokens * heads * size ==> IsPlace(i, tokens, heads, size, tokenStride, headStride))
    && (forall t: nat, h: nat, c: nat, t': nat, h': nat, c': nat ::
          && t < tokens && h < heads && c < size && t' < tokens && h' < heads && c' < size
          && At3(t, h, c, tokenStride, headStride) == At3(t', h', c', tokenStride, headStride) ==>
            (t, h, c) == (t', h', c'))
  }

  ghost predicate IsPlace(i: nat, tokens: nat, heads: nat, size: nat, tokenStride: nat, headStride: nat) {
    exists t: nat, h: nat, c: nat ::
      t < tokens && h < heads && c < size && At3(t, h, c, tokenStride, headStride) == i
  }

  ghost predicate LseShape(lse: View2, transposed: bool, tokens: nat, heads: nat) {
    && lse.Valid()
    && lse.rows == (if transposed then heads else tokens)
    && lse.cols == (if transposed then tokens else heads)
  }

  /** Where an lse tensor has the value of program (t, h). */
  function LseAt(lse: View2, transposed: bool, t: nat, h: nat): nat {
    if transposed then At2(t, h, lse.colStride, lse.rowStride) else At2(t, h, lse.rowStride, lse.colStride)
  }

  /** The arguments of one fusion call. */
  datatype Call = Call(exp: real -> real, outSys: View3, lseSys: View2, outUsr: View3, lseUsr: View2,
                       transSys: bool, transUsr: bool)
  {
    /** The shape assertions of the operator. */
    ghost predicate Valid() {
      && IsExp(exp)
      && outSys.Valid() && outUsr.Valid()
      && outSys.tokens == outUsr.tokens && outSys.heads == outUsr.heads
      && outSys.headSize == outUsr.headSize
      && LseShape(lseSys, transSys, outSys.tokens, outSys.heads)
      && LseShape(lseUsr, transUsr, outSys.tokens, outSys.heads)
    }

    predicate InGrid(t: nat, h: nat) {
      t < outSys.tokens && h < outSys.heads
    }

    /** The fusion weight of (t, h); a transposed lse tensor is transposed first. */
    function AlphaAt(t: nat, h: nat): real
      requires Valid() && InGrid(t, h)
    {
      var sys := if transSys then lseSys.Transpose() else lseSys;
      var usr := if transUsr then lseUsr.Transpose() else lseUsr;
      Alpha(exp, sys.Get(t, h), usr.Get(t, h))
    }

    /** The tensor form: one cell of the fused output. */
    function Native(t: nat, h: nat, c: nat): real
      requires Valid() && InGrid(t, h) && c < outSys.headSize
    {
      Mix(AlphaAt(t, h), outSys.Get(t, h, c), outUsr.Get(t, h, c))
    }

    predicate InTensor(t: nat, h: nat, c: nat) {
      InGrid(t, h) && c < outSys.headSize
    }

    /** Where the fused tensor has its cell: `empty_like` gives it the strides of the system output if
        that is dense, and lays it out contiguously otherwise. */
    ghost function OutAt(t: nat, h: nat, c: nat): nat {
      if outSys.Dense() then outSys.At(t, h, c) else Row(t, h, outSys.heads) * outSys.headSize + c
    }

    /** Programs p and q load the same two lse values. */
    predicate SameLse(p: (nat, nat), q: (nat, nat)) {
      && LseAt(lseSys, transSys, p.0, p.1) == LseAt(lseSys, transSys, q.0, q.1)
      && LseAt(lseUsr, transUsr, p.0, p.1) == LseAt(lseUsr, transUsr, q.0, q.1)
    }

    /** Both output buffers reach as far as the kernel reads. */
    ghost predicate Covers() {
      outSys.Cells() <= |outSys.buf| && outSys.Cells() <= |outUsr.buf|
    }

    /** The program that owns cell `i`. */
    function Owner(i: nat): (p: (nat, nat))
      requires i < outSys.Cells()
      ensures InGrid(p.0, p.1)
    {
      ProgramOf(i, outSys.tokens, outSys.heads, outSys.headSize)
    }

    /** The kernel form: cell `i` of the flat output buffer. */
    function Flat(i: nat): real
      requires Valid() && Covers() && i < outSys.Cells()
    {
      var p := Owner(i);
      Mix(AlphaAt(p.0, p.1), outSys.buf[i], outUsr.buf[i])
    }
  }

  // ---- address arithmetic ----

  /** A view starts at the start of its buffer; one step along a dimension is that dimension's stride. */
  lemma StridesAre(v: View2, w: View3, i: nat, j: nat, t: nat, h: nat, c: nat)
    ensures At2(0, 0, v.rowStride, v.colStride) == 0 && w.At(0, 0, 0) == 0
    ensures At2(i + 1, j, v.rowStride, v.colStride) == At2(i, j, v.rowStride, v.colStride) + v.rowStride
    ensures At2(i, j + 1, v.rowStride, v.colStride) == At2(i, j, v.rowStride, v.colStride) + v.colStride
    ensures w.At(t + 1, h, c) == w.At(t, h, c) + w.tokenStride
    ensures w.At(t, h + 1, c) == w.At(t, h, c) + w.headStride
    ensures w.At(t, h, c + 1) == w.At(t, h, c) + 1
  {
  }

  lemma RowInRange(t: nat, h: nat, tokens: nat, heads: nat, size: nat)
    requires t < tokens && h < heads
    ensures Row(t, h, heads) < tokens * heads
    ensures Row(t, h, heads) * size + size <= tokens * heads * size
    ensures Row(t, h, heads) / heads == t && Row(t, h, heads) % heads == h
  {
    MulMono(t + 1, tokens, heads);
    assert (t + 1) * heads == t * heads + heads;
    var row := Row(t, h, heads);
    MulMono(row + 1, tokens * heads, size);
    assert (row + 1) * size == row * size + size;
    DivModUnique(t, h, heads);
  }

  lemma GridOfCell(i: nat, tokens: nat, heads: nat, size: nat)
    requires i < tokens * heads * size
    ensures heads > 0 && size > 0
    ensures i / size < tokens * heads && i / size / heads < tokens
  {
    ProductPositive(tokens * heads, size);
    ProductPositive(tokens, heads);
    DivBound(i, tokens * heads, size);
    DivBound(i / size, tokens, heads);
  }

  /** The program that owns cell `i` of the flat output. */
  function ProgramOf(i: nat, tokens: nat, heads: nat, size: nat): (p: (nat, nat))
    requires i < tokens * heads * size
    ensures p.0 < tokens && p.1 < heads
  {
    GridOfCell(i, tokens, heads, size);
    (i / size / heads, i / size % heads)
  }

  /** Cell `i` belongs to row `row` exactly when it lies in that row's interval. */
  lemma RowInterval(i: nat, row: nat, size: nat)
    requires size > 0
    ensures i / size == row <==> row * size <= i < row * size + size
  {
    assert i == i / size * size + i % size;
    if row * size <= i < row * size + size {
      DivModUnique(row, i - row * size, size);
    }
  }

  function Pow2(k: nat): (p: nat)
    ensures p > 0
  {
    if k == 0 then 1 else 2 * Pow2(k - 1)
  }

  /** The block size: the smallest power of two not below `n`. */
  method NextPowerOfTwo(n: nat) returns (p: nat)
    ensures n <= p && (p == 1 || p < 2 * n)
    ensures exists k: nat :: p == Pow2(k)
  {
    p := 1;
    ghost var k := 0;
    while p < n
      invariant p == Pow2(k)
      invariant p == 1 || p < 2 * n
      decreases n - p
    {
      p := 2 * p;
      k := k + 1;
      assert p == Pow2(k);
    }
  }

  // ---- the kernel ----

  /** The kernel's load of one lse value: a stride for the token, a stride for the head, taken from
      the tensor in the order its layout flag says. It is the element the tensor form reads. */
  function LoadLse(lse: View2, transposed: bool, t: nat, h: nat, tokens: nat, heads: nat): (r: real)
    requires LseShape(lse, transposed, tokens, heads) && t < tokens && h < heads
    ensures r == (if transposed then lse.Transpose() else lse).Get(t, h)
  {
    var tokenStride := if transposed then lse.colStride else lse.rowStride;
    var headStride := if transposed then lse.rowStride else lse.colStride;
    assert transposed ==> At2(t, h, tokenStride, headStride) == At2(h, t, lse.rowStride, lse.colStride);
    lse.buf[At2(t, h, tokenStride, headStride)]
  }

  /** One program: loads its two lse values through the strides, then loads, mixes and stores the
      lanes below headSize of its row. No other cell changes. */
  method Program(call: Call, t: nat, h: nat, blockSize: nat, out: array<real>)
    requires call.Valid() && call.Covers() && call.InGrid(t, h)
    requires out.Length == call.outSys.Cells() && call.outSys.headSize <= blockSize
    modifies out
    ensures
      var base := Row(t, h, call.outSys.heads) * call.outSys.headSize;
      forall i: nat :: i < out.Length ==>
        out[i] == if base <= i < base + call.outSys.headSize
                  then Mix(call.AlphaAt(t, h), call.outSys.buf[i], call.outUsr.buf[i])
                  else old(out[i])
  {
    var heads, size := call.outSys.heads, call.outSys.headSize;
    var lseSys := LoadLse(call.lseSys, call.transSys, t, h, call.outSys.tokens, heads);
    var lseUsr := LoadLse(call.lseUsr, call.transUsr, t, h, call.outSys.tokens, heads);
    var rescaleSys := Alpha(call.exp, lseSys, lseUsr);
    var base := Row(t, h, heads) * size;
    RowInRange(t, h, call.outSys.tokens, heads, size);
    StoreLanes(call.outSys.buf, call.outUsr.buf, rescaleSys, base, size, blockSize, out);
  }

  /** The masked loads and stores of one program, lane by lane. */
  method StoreLanes(sys: seq<real>, usr: seq<real>, alpha: real, base: nat, size: nat, blockSize: nat, out: array<real>)
    requires base + size <= out.Length <= |sys| && out.Length <= |usr| && size <= blockSize
    modifies out
    ensures forall i: nat :: i < out.Length ==>
      out[i] == if base <= i < base + size then Mix(alpha, sys[i], usr[i]) else old(out[i])
  {
    for off := 0 to blockSize
      invariant forall i: nat :: i < out.Length ==>
        out[i] == if base <= i < base + size && i < base + off then Mix(alpha, sys[i], usr[i]) else old(out[i])
    {
      if off < size {
        out[base + off] := Mix(alpha, sys[base + off], usr[base + off]);
      }
    }
  }

  /** The programs run in any order, each any number of times: every cell is stored as often as its
      program ran, and holds the kernel form of the fusion once its program has run. */
  method Launch(call: Call, order: seq<(nat, nat)>) returns (out: array<real>, ghost stores: seq<nat>)
    requires call.Valid() && call.Covers()
    requires forall k :: 0 <= k < |order| ==> call.InGrid(order[k].0, order[k].1)
    ensures out.Length == |stores| == call.outSys.Cells()
    ensures forall i: nat :: i < out.Length ==> stores[i] == multiset(order)[call.Owner(i)]
    ensures forall i: nat :: i < out.Length && call.Owner(i) in order ==> out[i] == call.Flat(i)
  {
    var blockSize := NextPowerOfTwo(call.outSys.headSize);
    out := new real[call.outSys.Cells()];
    stores := seq(out.Length, _ => 0);
    var heads, size := call.outSys.heads, call.outSys.headSize;
    for k := 0 to |order|
      invariant |stores| == out.Length
      invariant forall i: nat :: i < out.Length ==>
        && stores[i] == multiset(order[..k])[call.Owner(i)]
        && (stores[i] > 0 ==> out[i] == call.Flat(i))
    {
      var (t, h) := order[k];
      ghost var row := Row(t, h, heads);
      assert order[..k + 1] == order[..k] + [order[k]];
      forall i: nat | i < out.Length
        ensures call.Owner(i) == (t, h) <==> row * size <= i < row * size + size
      {
        CellOfProgram(i, t, h, call.outSys.tokens, heads, size);
      }
      Program(call, t, h, blockSize, out);
      stores := seq(out.Length, i requires 0 <= i < |stores| =>
        if row * size <= i < row * size + size then stores[i] + 1 else stores[i]);
    }
    assert order[..|order|] == order;
  }

  lemma CellOfProgram(i: nat, t: nat, h: nat, tokens: nat, heads: nat, size: nat)
    requires t < tokens && h < heads && i < tokens * heads * size
    ensures ProgramOf(i, tokens, heads, size) == (t, h)
       <==> Row(t, h, heads) * size <= i < Row(t, h, heads) * size + size
  {
    GridOfCell(i, tokens, heads, size);
    RowInterval(i, Row(t, h, heads), size);
    RowInRange(t, h, tokens, heads, size);
    var row := i / size;
    assert row == row / heads * heads + row % heads;
  }

  // ---- kernel and tensor form ----

  /** An order that runs the whole grid once. */
  ghost predicate RunsGridOnce(call: Call, order: seq<(nat, nat)>) {
    forall t: nat, h: nat :: multiset(order)[(t, h)] == if call.InGrid(t, h) then 1 else 0
  }

  /** A cell of the fused tensor, of the system output and of the user output lie at the same place,
      and the program that stores there loads the lse values of the cell. */
  ghost predicate AlignedAt(call: Call, t: nat, h: nat, c: nat)
    requires call.InTensor(t, h, c)
  {
    var i := call.OutAt(t, h, c);
    && i < call.outSys.Cells()
    && call.outSys.At(t, h, c) == call.outUsr.At(t, h, c) == i
    && call.SameLse(call.Owner(i), (t, h))
  }

  ghost predicate Aligned(call: Call) {
    forall t: nat, h: nat, c: nat :: call.InTensor(t, h, c) ==> AlignedAt(call, t, h, c)
  }

  lemma OutInRange(call: Call, t: nat, h: nat, c: nat)
    requires call.InTensor(t, h, c)
    ensures call.OutAt(t, h, c) < call.outSys.Cells()
  {
    RowInRange(t, h, call.outSys.tokens, call.outSys.heads, call.outSys.headSize);
  }

  lemma RowAndLane(i: nat, tokens: nat, heads: nat, size: nat) returns (t: nat, h: nat, c: nat)
    requires i < tokens * heads * size
    ensures t < tokens && h < heads && c < size && Row(t, h, heads) * size + c == i
  {
    GridOfCell(i, tokens, heads, size);
    QuotientAndRest(i, size);
    QuotientAndRest(i / size, heads);
    t, h, c := i / size / heads, i / size % heads, i % size;
    RowFromParts(i, i / size, t, h, c, heads, size);
  }

  lemma RowFromParts(i: nat, row: nat, t: nat, h: nat, c: nat, heads: nat, size: nat)
    requires row == t * heads + h && i == row * size + c
    ensures Row(t, h, heads) * size + c == i
  {
  }

  lemma QuotientAndRest(x: nat, d: nat)
    requires d > 0
    ensures x == x / d * d + x % d && x % d < d
  {
  }

  /** Every place of the fused buffer is that of a cell. */
  lemma CellAt(call: Call, i: nat) returns (t: nat, h: nat, c: nat)
    requires i < call.outSys.Cells()
    ensures call.InTensor(t, h, c) && call.OutAt(t, h, c) == i
  {
    var tokens, heads, size := call.outSys.tokens, call.outSys.heads, call.outSys.headSize;
    if call.outSys.Dense() {
      assert IsPlace(i, tokens, heads, size, call.outSys.tokenStride, call.outSys.headStride);
      t, h, c :| t < tokens && h < heads && c < size
        && At3(t, h, c, call.outSys.tokenStride, call.outSys.headStride) == i;
    } else {
      t, h, c := RowAndLane(i, tokens, heads, size);
    }
  }

  /** The fused tensor has every cell at a place of its own, and all places are taken; where the system
      output is dense, it has the cells where the system output has them. */
  lemma FusedLayout(call: Call, t: nat, h: nat, c: nat, t': nat, h': nat, c': nat)
    requires call.InTensor(t, h, c) && call.InTensor(t', h', c')
    ensures call.OutAt(t, h, c) == call.OutAt(t', h', c') ==> (t, h, c) == (t', h', c')
    ensures call.OutAt(t, h, c) < call.outSys.Cells()
    ensures call.outSys.Dense() ==> call.OutAt(t, h, c) == call.outSys.At(t, h, c)
  {
    OutInRange(call, t, h, c);
    var tokens, heads, size := call.outSys.tokens, call.outSys.heads, call.outSys.headSize;
    if !call.outSys.Dense() {
      CellOfRow(t, h, c, tokens, heads, size);
      CellOfRow(t', h', c', tokens, heads, size);
    }
  }

  /** An aligned call stays inside both buffers. */
  lemma AlignedCovers(call: Call)
    requires call.Valid() && Aligned(call)
    ensures call.Covers()
  {
    if call.outSys.Cells() > 0 {
      var t, h, c := CellAt(call, call.outSys.Cells() - 1);
      assert AlignedAt(call, t, h, c);
    }
  }

  /** In an aligned call the kernel form of a cell is the tensor form. */
  lemma FlatIsNative(call: Call, t: nat, h: nat, c: nat)
    requires call.Valid() && Aligned(call) && call.InTensor(t, h, c)
    ensures call.Covers() && call.OutAt(t, h, c) < call.outSys.Cells()
    ensures call.Flat(call.OutAt(t, h, c)) == call.Native(t, h, c)
  {
    AlignedCovers(call);
    assert AlignedAt(call, t, h, c);
  }

  lemma CellOfRow(t: nat, h: nat, c: nat, tokens: nat, heads: nat, size: nat)
    requires t < tokens && h < heads && c < size
    ensures Row(t, h, heads) * size + c < tokens * heads * size
    ensures ProgramOf(Row(t, h, heads) * size + c, tokens, heads, size) == (t, h)
  {
    RowInRange(t, h, tokens, heads, size);
    CellOfProgram(Row(t, h, heads) * size + c, t, h, tokens, heads, size);
  }

  /** A call on contiguous output tensors is aligned, and its result is contiguous. */
  lemma ContiguousIsAligned(call: Call)
    requires call.Valid() && call.outSys.Contiguous() && call.outUsr.Contiguous()
    ensures Aligned(call)
    ensures forall t: nat, h: nat, c: nat :: call.InTensor(t, h, c) ==>
      call.OutAt(t, h, c) == Row(t, h, call.outSys.heads) * call.outSys.headSize + c
  {
    forall t: nat, h: nat, c: nat | call.InTensor(t, h, c)
      ensures AlignedAt(call, t, h, c)
    {
      CellOfRow(t, h, c, call.outSys.tokens, call.outSys.heads, call.outSys.headSize);
    }
  }

  lemma InGridOnly(call: Call, order: seq<(nat, nat)>)
    requires RunsGridOnce(call, order)
    ensures forall k :: 0 <= k < |order| ==> call.InGrid(order[k].0, order[k].1)
  {
    forall k | 0 <= k < |order|
      ensures call.InGrid(order[k].0, order[k].1)
    {
      assert order[k] in multiset(order);
    }
  }

  /** The kernel call, on aligned tensors: for every order of the grid, all strides of the lse tensors
      and both layout flags, it stays inside the buffers, each output cell is stored exactly once, and
      the fused tensor holds the tensor form of the fusion. */
  method FuseByKernel(call: Call, order: seq<(nat, nat)>) returns (out: array<real>, ghost stores: seq<nat>)
    requires call.Valid() && Aligned(call)
    requires RunsGridOnce(call, order)
    ensures out.Length == |stores| == call.outSys.Cells()
    ensures forall i :: 0 <= i < |stores| ==> stores[i] == 1
    ensures forall t: nat, h: nat, c: nat :: call.InTensor(t, h, c) ==>
      call.OutAt(t, h, c) < out.Length && out[call.OutAt(t, h, c)] == call.Native(t, h, c)
  {
    InGridOnly(call, order);
    AlignedCovers(call);
    out, stores := Launch(call, order);
    forall t: nat, h: nat, c: nat | call.InTensor(t, h, c)
      ensures call.OutAt(t, h, c) < out.Length && out[call.OutAt(t, h, c)] == call.Native(t, h, c)
    {
      FlatIsNative(call, t, h, c);
    }
  }

  // ---- exactly when kernel and tensor form agree ----

  ghost predicate AgreesAt(call: Call, t: nat, h: nat, c: nat)
    requires call.Valid() && call.Covers() && call.InTensor(t, h, c)
  {
    OutInRange(call, t, h, c);
    call.Flat(call.OutAt(t, h, c)) == call.Native(t, h, c)
  }

  /** The kernel stays inside the buffers and computes the tensor form. */
  ghost predicate Agrees(call: Call)
    requires call.Valid()
  {
    call.Covers() && forall t: nat, h: nat, c: nat :: call.InTensor(t, h, c) ==> AgreesAt(call, t, h, c)
  }

  lemma AlignedAgrees(call: Call)
    requires call.Valid() && Aligned(call)
    ensures Agrees(call)
  {
    AlignedCovers(call);
    forall t: nat, h: nat, c: nat | call.InTensor(t, h, c)
      ensures AgreesAt(call, t, h, c)
    {
      FlatIsNative(call, t, h, c);
    }
  }

  /** The same call with other contents in its four buffers. */
  function Refill(call: Call, sys: seq<real>, usr: seq<real>, lseSys: seq<real>, lseUsr: seq<real>): (other: Call)
    requires call.Valid() && Fit(call, sys, usr, lseSys, lseUsr)
    ensures other.Valid() && (call.Covers() <==> other.Covers()) && (Aligned(call) <==> Aligned(other))
  {
    var other := call.(outSys := call.outSys.(buf := sys), outUsr := call.outUsr.(buf := usr),
                       lseSys := call.lseSys.(buf := lseSys), lseUsr := call.lseUsr.(buf := lseUsr));
    assert forall t: nat, h: nat, c: nat :: call.InTensor(t, h, c) ==>
      (AlignedAt(call, t, h, c) <==> AlignedAt(other, t, h, c));
    other
  }

  predicate Fit(call: Call, sys: seq<real>, usr: seq<real>, lseSys: seq<real>, lseUsr: seq<real>) {
    && |sys| == |call.outSys.buf| && |usr| == |call.outUsr.buf|
    && |lseSys| == |call.lseSys.buf| && |lseUsr| == |call.lseUsr.buf|
  }

  /** Whatever the buffers hold, the kernel computes the fusion of these layouts. */
  ghost predicate AlwaysAgrees(call: Call)
    requires call.Valid()
  {
    forall sys: seq<real>, usr: seq<real>, lseSys: seq<real>, lseUsr: seq<real> ::
      Fit(call, sys, usr, lseSys, lseUsr) ==> Agrees(Refill(call, sys, usr, lseSys, lseUsr))
  }

  function Constant(n: nat, x: real): (s: seq<real>)
    ensures |s| == n
  {
    seq(n, _ => x)
  }

  function Mark(n: nat, at: nat, x: real): (s: seq<real>)
    ensures |s| == n
  {
    seq(n, i => if i == at then x else 0.0)
  }

  /** A 1 at the place that the kernel stores to tells whether the system cell lies there. */
  lemma SystemPlace(call: Call, t: nat, h: nat, c: nat)
    requires call.Valid() && AlwaysAgrees(call) && call.InTensor(t, h, c)
    ensures call.outSys.At(t, h, c) == call.OutAt(t, h, c)
  {
    var i := call.OutAt(t, h, c);
    OutInRange(call, t, h, c);
    var sys, usr := Mark(|call.outSys.buf|, i, 1.0), Constant(|call.outUsr.buf|, 0.0);
    var other := Refill(call, sys, usr, call.lseSys.buf, call.lseUsr.buf);
    assert Agrees(other) && AgreesAt(other, t, h, c);
    var p := call.Owner(i);
    assert other.Flat(i) == Mix(other.AlphaAt(p.0, p.1), 1.0, 0.0);
    assert other.Native(t, h, c) == Mix(other.AlphaAt(t, h), sys[call.outSys.At(t, h, c)], 0.0);
  }

  lemma UserPlace(call: Call, t: nat, h: nat, c: nat)
    requires call.Valid() && AlwaysAgrees(call) && call.InTensor(t, h, c)
    ensures call.outUsr.At(t, h, c) == call.OutAt(t, h, c)
  {
    var i := call.OutAt(t, h, c);
    OutInRange(call, t, h, c);
    var sys, usr := Constant(|call.outSys.buf|, 0.0), Mark(|call.outUsr.buf|, i, 1.0);
    var other := Refill(call, sys, usr, call.lseSys.buf, call.lseUsr.buf);
    assert Agrees(other) && AgreesAt(other, t, h, c);
    var p := call.Owner(i);
    assert other.Flat(i) == Mix(other.AlphaAt(p.0, p.1), 0.0, 1.0);
    assert other.Native(t, h, c) == Mix(other.AlphaAt(t, h), 0.0, usr[call.outUsr.At(t, h, c)]);
  }

  /** The weight tells apart two lse values that differ by 1. */
  lemma AlphaDiffers(exp: real -> real)
    requires IsExp(exp) && exp(1.0) != 1.0
    ensures Alpha(exp, 1.0, 0.0) != Alpha(exp, 0.0, 0.0)
    ensures Alpha(exp, 0.0, 1.0) != Alpha(exp, 0.0, 0.0)
  {
    ExpOfSum(exp, 0.0, 0.0, 0.0);
    ExpOfSum(exp, 1.0, -1.0, 0.0);
    Idempotent(exp(0.0));
  }

  lemma ExpOfSum(exp: real -> real, x: real, y: real, z: real)
    requires IsExp(exp) && z == x + y
    ensures exp(z) == exp(x) * exp(y)
  {
    assert SumToProduct(exp, x, y);
  }

  lemma Idempotent(e: real)
    requires e > 0.0 && e == e * e
    ensures e == 1.0
  {
    assert e * (e - 1.0) == 0.0;
  }

  lemma LseInBuffer(lse: View2, transposed: bool, t: nat, h: nat, tokens: nat, heads: nat)
    requires LseShape(lse, transposed, tokens, heads) && t < tokens && h < heads
    ensures LseAt(lse, transposed, t, h) < |lse.buf|
    ensures (if transposed then lse.Transpose() else lse).Get(t, h) == lse.buf[LseAt(lse, transposed, t, h)]
  {
    assert transposed ==> LseAt(lse, transposed, t, h) == At2(h, t, lse.rowStride, lse.colStride);
  }

  /** The weight of a program, from the contents of the two lse buffers. */
  lemma AlphaOf(call: Call, t: nat, h: nat)
    requires call.Valid() && call.InGrid(t, h)
    ensures
      var a, b := LseAt(call.lseSys, call.transSys, t, h), LseAt(call.lseUsr, call.transUsr, t, h);
      && a < |call.lseSys.buf| && b < |call.lseUsr.buf|
      && call.AlphaAt(t, h) == Alpha(call.exp, call.lseSys.buf[a], call.lseUsr.buf[b])
  {
    LseInBuffer(call.lseSys, call.transSys, t, h, call.outSys.tokens, call.outSys.heads);
    LseInBuffer(call.lseUsr, call.transUsr, t, h, call.outSys.tokens, call.outSys.heads);
  }

  /** Over a system output of ones and a user output of zeros, the fusion is the weight. */
  lemma WeightsAgree(call: Call, lseSys: seq<real>, lseUsr: seq<real>, t: nat, h: nat, c: nat)
    requires call.Valid() && AlwaysAgrees(call) && call.InTensor(t, h, c)
    requires |lseSys| == |call.lseSys.buf| && |lseUsr| == |call.lseUsr.buf|
    ensures call.OutAt(t, h, c) < call.outSys.Cells()
    ensures
      var sys, usr := Constant(|call.outSys.buf|, 1.0), Constant(|call.outUsr.buf|, 0.0);
      var other := Refill(call, sys, usr, lseSys, lseUsr);
      var p := call.Owner(call.OutAt(t, h, c));
      other.AlphaAt(p.0, p.1) == other.AlphaAt(t, h)
  {
    var i := call.OutAt(t, h, c);
    OutInRange(call, t, h, c);
    var sys, usr := Constant(|call.outSys.buf|, 1.0), Constant(|call.outUsr.buf|, 0.0);
    var other := Refill(call, sys, usr, lseSys, lseUsr);
    assert Agrees(other) && AgreesAt(other, t, h, c);
    var p := call.Owner(i);
    assert other.Flat(i) == Mix(other.AlphaAt(p.0, p.1), 1.0, 0.0);
    assert other.Native(t, h, c) == Mix(other.AlphaAt(t, h), 1.0, 0.0);
  }

  lemma LsePlaces(call: Call, t: nat, h: nat, c: nat)
    requires call.Valid() && call.exp(1.0) != 1.0 && AlwaysAgrees(call) && call.InTensor(t, h, c)
    ensures call.OutAt(t, h, c) < call.outSys.Cells()
    ensures call.SameLse(call.Owner(call.OutAt(t, h, c)), (t, h))
  {
    OutInRange(call, t, h, c);
    var p := call.Owner(call.OutAt(t, h, c));
    var sys, usr := Constant(|call.outSys.buf|, 1.0), Constant(|call.outUsr.buf|, 0.0);
    var ns, nu := |call.lseSys.buf|, |call.lseUsr.buf|;
    AlphaDiffers(call.exp);
    AlphaOf(call, p.0, p.1);
    var marked := Mark(ns, LseAt(call.lseSys, call.transSys, p.0, p.1), 1.0);
    WeightsAgree(call, marked, Constant(nu, 0.0), t, h, c);
    AlphaOf(Refill(call, sys, usr, marked, Constant(nu, 0.0)), p.0, p.1);
    AlphaOf(Refill(call, sys, usr, marked, Constant(nu, 0.0)), t, h);
    marked := Mark(nu, LseAt(call.lseUsr, call.transUsr, p.0, p.1), 1.0);
    WeightsAgree(call, Constant(ns, 0.0), marked, t, h, c);
    AlphaOf(Refill(call, sys, usr, Constant(ns, 0.0), marked), p.0, p.1);
    AlphaOf(Refill(call, sys, usr, Constant(ns, 0.0), marked), t, h);
  }

  /** The operator asserts only that the last strides are 1. That is not enough: whatever the buffers
      hold, the kernel stays inside them and computes the fusion, if and only if the call is aligned. */
  lemma KernelExactly(call: Call)
    requires call.Valid() && call.exp(1.0) != 1.0
    ensures AlwaysAgrees(call) <==> Aligned(call)
  {
    if Aligned(call) {
      forall sys: seq<real>, usr: seq<real>, lseSys: seq<real>, lseUsr: seq<real> |
        Fit(call, sys, usr, lseSys, lseUsr)
        ensures Agrees(Refill(call, sys, usr, lseSys, lseUsr))
      {
        AlignedAgrees(Refill(call, sys, usr, lseSys, lseUsr));
      }
    } else if AlwaysAgrees(call) {
      forall t: nat, h: nat, c: nat | call.InTensor(t, h, c)
        ensures AlignedAt(call, t, h, c)
      {
        SystemPlace(call, t, h, c);
        UserPlace(call, t, h, c);
        LsePlaces(call, t, h, c);
      }
      assert false;
    }
  }

  /** No two programs load the same two lse values. */
  ghost predicate LseApart(call: Call) {
    forall p: (nat, nat), q: (nat, nat) ::
      call.InGrid(p.0, p.1) && call.InGrid(q.0, q.1) && call.SameLse(p, q) ==> p == q
  }

  /** Where the lse tensors do not repeat their cells, as those of the attention kernels do not, the
      condition is that both output tensors are contiguous. */
  lemma KernelNeedsContiguous(call: Call)
    requires call.Valid() && call.exp(1.0) != 1.0 && LseApart(call)
    ensures AlwaysAgrees(call) <==> call.outSys.Contiguous() && call.outUsr.Contiguous()
  {
    KernelExactly(call);
    if Aligned(call) {
      forall t: nat, h: nat, c: nat | call.InTensor(t, h, c)
        ensures call.OutAt(t, h, c) == Row(t, h, call.outSys.heads) * call.outSys.headSize + c
      {
        AlignedInPlace(call, t, h, c);
      }
      forall t: nat, h: nat, c: nat | call.InTensor(t, h, c)
        ensures call.outSys.At(t, h, c) == call.outUsr.At(t, h, c) == call.OutAt(t, h, c)
      {
        assert AlignedAt(call, t, h, c);
      }
    } else if call.outSys.Contiguous() && call.outUsr.Contiguous() {
      ContiguousIsAligned(call);
      assert false;
    }
  }

  /** The first and the last lane of a row lie in the row's own interval, so the row fills it. */
  lemma AlignedInPlace(call: Call, t: nat, h: nat, c: nat)
    requires call.Valid() && Aligned(call) && LseApart(call) && call.InTensor(t, h, c)
    ensures call.OutAt(t, h, c) == Row(t, h, call.outSys.heads) * call.outSys.headSize + c
  {
    var last := call.outSys.headSize - 1;
    InOwnRow(call, t, h, 0);
    InOwnRow(call, t, h, last);
    assert AlignedAt(call, t, h, 0) && AlignedAt(call, t, h, last) && AlignedAt(call, t, h, c);
  }

  lemma InOwnRow(call: Call, t: nat, h: nat, c: nat)
    requires call.Valid() && Aligned(call) && LseApart(call) && call.InTensor(t, h, c)
    ensures
      var row := Row(t, h, call.outSys.heads) * call.outSys.headSize;
      row <= call.OutAt(t, h, c) < row + call.outSys.headSize
  {
    assert AlignedAt(call, t, h, c);
    var i := call.OutAt(t, h, c);
    assert call.Owner(i) == (t, h);
    CellOfProgram(i, t, h, call.outSys.tokens, call.outSys.heads, call.outSys.headSize);
  }

  /** The user tensor alone: with a contiguous system output and everything else fixed, the kernel
      stays inside the buffers and agrees for every content of the user output if and only if that
      tensor is contiguous. */
  lemma KernelNeedsContiguousUser(call: Call)
    requires call.Valid() && call.outSys.Contiguous()
    ensures (forall usr: seq<real> :: |usr| == |call.outUsr.buf| ==> Agrees(WithUser(call, usr)))
       <==> call.outUsr.Contiguous()
  {
    if call.outUsr.Contiguous() {
      ContiguousIsAligned(call);
      forall usr: seq<real> | |usr| == |call.outUsr.buf|
        ensures Agrees(WithUser(call, usr))
      {
        AlignedAgrees(WithUser(call, usr));
      }
    } else {
      var t: nat, h: nat, c: nat :| call.InTensor(t, h, c)
        && call.outUsr.At(t, h, c) != Row(t, h, call.outUsr.heads) * call.outUsr.headSize + c;
      MisplacedCellDisagrees(call, t, h, c);
    }
  }

  function WithUser(call: Call, usr: seq<real>): (other: Call)
    requires call.Valid() && |usr| == |call.outUsr.buf|
    ensures other.Valid() && (call.Covers() <==> other.Covers()) && (Aligned(call) <==> Aligned(other))
  {
    Refill(call, call.outSys.buf, usr, call.lseSys.buf, call.lseUsr.buf)
  }

  lemma MisplacedCellDisagrees(call: Call, t: nat, h: nat, c: nat)
    requires call.Valid() && call.outSys.Contiguous() && call.InTensor(t, h, c)
    requires call.outUsr.At(t, h, c) != Row(t, h, call.outUsr.heads) * call.outUsr.headSize + c
    ensures exists usr: seq<real> :: |usr| == |call.outUsr.buf| && !Agrees(WithUser(call, usr))
  {
    var i := call.OutAt(t, h, c);
    CellOfRow(t, h, c, call.outSys.tokens, call.outSys.heads, call.outSys.headSize);
    assert i == call.outSys.At(t, h, c);
    var usr := Mark(|call.outUsr.buf|, i, 1.0);
    var other := WithUser(call, usr);
    if other.Covers() {
      assert other.Flat(i) == Mix(other.AlphaAt(t, h), call.outSys.buf[i], 1.0);
      assert other.Native(t, h, c) == Mix(other.AlphaAt(t, h), call.outSys.buf[i], 0.0);
      assert !AgreesAt(other, t, h, c);
    }
  }
}
