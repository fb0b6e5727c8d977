/** The attention layer's forward pass: it fills the prefix cache, uses it, writes the paged cache
    and attends, in the order of the source, on caches updated in place. */
module PagedAttention {
  import opened Arithmetic
  import opened Options
  import opened Softmax
  import opened RelayModel
  import FusionKernel

  type Heads = seq<Vec>

  /** What the run tells every layer. `prefixLength` says whether there is a prefix to fill (negative)
      or to use (positive); the kernel reads how long it is from `prefixLengthBuffer`. Block tables
      and context lengths are read when decoding. */
  datatype Metadata = Metadata(
      prefixLength: int, prefixLengthBuffer: nat, isPrompt: bool, slotMapping: Option<seq<int>>,
      blockTables: seq<seq<nat>>, contextLens: seq<nat>, blockSize: nat)

  datatype Result = Ok(output: seq<Heads>) | AssertionError

  // ---- values held by the caches ----

  function Pair(keys: seq<Heads>, values: seq<Heads>): (ctx: seq<KV>)
    requires |keys| == |values|
    ensures |ctx| == |keys|
    ensures forall j :: 0 <= j < |ctx| ==> ctx[j] == KV(keys[j], values[j])
  {
    seq(|keys|, j requires 0 <= j < |keys| => KV(keys[j], values[j]))
  }

  /** Token t is stored in slot slots[t]; a negative slot marks padding and stores nothing. */
  function Scatter(cache: seq<Heads>, slots: seq<int>, tokens: seq<Heads>): (r: seq<Heads>)
    requires |slots| == |tokens| && forall t :: 0 <= t < |slots| ==> slots[t] < |cache|
    ensures |r| == |cache|
  {
    if slots == [] then cache
    else
      var n := |slots| - 1;
      var before := Scatter(cache, slots[..n], tokens[..n]);
      if slots[n] < 0 then before else before[slots[n] := tokens[n]]
  }

  /** The slot of position j of a request. */
  function Slot(table: seq<nat>, blockSize: nat, j: nat): nat
    requires blockSize > 0 && j / blockSize < |table|
  {
    table[j / blockSize] * blockSize + j % blockSize
  }

  /** The slot of a position lies in the block that the table gives for it, as far in as the position lies
      in its own block. */
  lemma SlotExactly(table: seq<nat>, blockSize: nat, j: nat)
    requires blockSize > 0 && j / blockSize < |table|
    ensures Slot(table, blockSize, j) / blockSize == table[j / blockSize]
    ensures Slot(table, blockSize, j) % blockSize == j % blockSize
  {
    DivModUnique(table[j / blockSize], j % blockSize, blockSize);
  }

  ghost predicate TableCovers(table: seq<nat>, blockSize: nat, len: nat, slots: nat) {
    && blockSize > 0
    && forall j: nat :: j < len ==> j / blockSize < |table| && Slot(table, blockSize, j) < slots
  }

  /** The slots of the first positions of a request. */
  function Positions(table: seq<nat>, blockSize: nat, len: nat): (at: seq<nat>)
    requires blockSize > 0 && forall j: nat :: j < len ==> j / blockSize < |table|
    ensures |at| == len && forall j :: 0 <= j < len ==> at[j] == Slot(table, blockSize, j)
  {
    seq(len, j requires 0 <= j < len => Slot(table, blockSize, j))
  }

  function Gather(keys: seq<Heads>, values: seq<Heads>, at: seq<nat>): (ctx: seq<KV>)
    requires |keys| == |values| && forall j :: 0 <= j < |at| ==> at[j] < |keys|
    ensures |ctx| == |at|
  {
    seq(|at|, j requires 0 <= j < |at| => KV(keys[at[j]], values[at[j]]))
  }

  /** The context of a request as its block table lays it out. */
  function PagedContext(keys: seq<Heads>, values: seq<Heads>, table: seq<nat>, blockSize: nat, len: nat): (ctx: seq<KV>)
    requires |keys| == |values| && TableCovers(table, blockSize, len, |keys|)
    ensures |ctx| == len
  {
    Gather(keys, values, Positions(table, blockSize, len))
  }

  ghost predicate Stored(att: Attention, keys: seq<Heads>, values: seq<Heads>) {
    && |keys| == |values|
    && forall s :: 0 <= s < |keys| ==> att.Fits(KV(keys[s], values[s]))
  }

  /** The user context of token t: in a prompt run, its own sequence up to itself (the sequences of
      a batch are laid one after the other); in a decoding run, its request's paged context. */
  function UserContext(meta: Metadata, seqLen: nat, key: seq<Heads>, value: seq<Heads>,
                       keys: seq<Heads>, values: seq<Heads>, t: nat): (ctx: seq<KV>)
    requires |key| == |value| && t < |key| && seqLen > 0
    requires |keys| == |values|
    requires !meta.isPrompt ==>
      && t < |meta.blockTables| && t < |meta.contextLens|
      && TableCovers(meta.blockTables[t], meta.blockSize, meta.contextLens[t], |keys|)
  {
    if meta.isPrompt then Pair(key, value)[t - t % seqLen..t + 1]
    else PagedContext(keys, values, meta.blockTables[t], meta.blockSize, meta.contextLens[t])
  }

  class AttentionLayer {
    const att: Attention

    constructor (att: Attention)
      ensures this.att == att
    {
      this.att := att;
    }

    /** The slice assignment that fills the prefix cache. */
    method FillPrefix(prefixKeys: array<Heads>, prefixValues: array<Heads>, key: seq<Heads>, value: seq<Heads>)
      requires |key| == |value| && prefixKeys != prefixValues
      requires |key| <= prefixKeys.Length && |key| <= prefixValues.Length
      modifies prefixKeys, prefixValues
      ensures prefixKeys[..] == key + old(prefixKeys[|key|..])
      ensures prefixValues[..] == value + old(prefixValues[|key|..])
    {
      forall j | 0 <= j < |key| {
        prefixKeys[j] := key[j];
      }
      forall j | 0 <= j < |key| {
        prefixValues[j] := value[j];
      }
    }

    /** The write of new keys and values into the paged cache. */
    method ReshapeAndCache(key: seq<Heads>, value: seq<Heads>, keyCache: array<Heads>, valueCache: array<Heads>, slots: seq<int>)
      requires |key| == |value| == |slots| && keyCache != valueCache
      requires keyCache.Length == valueCache.Length
      requires forall t :: 0 <= t < |slots| ==> slots[t] < keyCache.Length
      modifies keyCache, valueCache
      ensures keyCache[..] == Scatter(old(keyCache[..]), slots, key)
      ensures valueCache[..] == Scatter(old(valueCache[..]), slots, value)
    {
      for t := 0 to |slots|
        invariant keyCache[..] == Scatter(old(keyCache[..]), slots[..t], key[..t])
        invariant valueCache[..] == Scatter(old(valueCache[..]), slots[..t], value[..t])
      {
        assert slots[..t + 1][..t] == slots[..t];
        assert key[..t + 1][..t] == key[..t] && value[..t + 1][..t] == value[..t];
        if slots[t] >= 0 {
          keyCache[slots[t]] := key[t];
          valueCache[slots[t]] := value[t];
        }
      }
      assert slots[..|slots|] == slots && key[..|slots|] == key && value[..|slots|] == value;
    }

    /** The preconditions the kernels put on a call. */
    ghost predicate Ready(batchSize: nat, seqLen: nat, query: seq<Heads>, key: seq<Heads>, value: seq<Heads>,
                          keyCache: array?<Heads>, valueCache: array?<Heads>, meta: Metadata,
                          prefixKeys: array?<Heads>, prefixValues: array?<Heads>)
      reads keyCache, valueCache, prefixKeys, prefixValues
    {
      && att.Valid() && seqLen > 0
      && |query| == |key| == |value| == batchSize * seqLen
      && (forall t :: 0 <= t < |query| ==> |query[t]| == att.numHeads)
      && Stored(att, key, value)
      // the four tensors do not share storage
      && (keyCache != null ==> keyCache != valueCache && keyCache != prefixKeys && keyCache != prefixValues)
      && (valueCache != null ==> valueCache != prefixKeys && valueCache != prefixValues)
      && (prefixKeys != null ==> prefixKeys != prefixValues)
      && (keyCache != null && valueCache != null ==> Stored(att, keyCache[..], valueCache[..]))
      && (prefixKeys != null && prefixValues != null ==> Stored(att, prefixKeys[..], prefixValues[..]))
      // filling and using the prefix
      && (meta.prefixLength < 0 && prefixKeys != null && batchSize == 1 ==> seqLen <= prefixKeys.Length)
      && (meta.prefixLength > 0 ==>
            prefixKeys != null && prefixValues != null && meta.prefixLengthBuffer <= prefixKeys.Length)
      // slots, and block tables when decoding
      && (keyCache != null && meta.slotMapping.Some? ==>
            && |meta.slotMapping.value| == |query|
            && forall t :: 0 <= t < |query| ==> meta.slotMapping.value[t] < keyCache.Length)
      && (!meta.isPrompt && keyCache != null ==>
            && |meta.blockTables| == |meta.contextLens| == |query|
            && forall t :: 0 <= t < |query| ==>
                 TableCovers(meta.blockTables[t], meta.blockSize, meta.contextLens[t], keyCache.Length))
    }

    /** The fill call asks for no paged cache, a prefix cache, and one prompt. */
    ghost predicate FillAsserted(batchSize: nat, keyCache: array?<Heads>, valueCache: array?<Heads>, meta: Metadata,
                                 prefixKeys: array?<Heads>, prefixValues: array?<Heads>)
    {
      && keyCache == null && valueCache == null && prefixKeys != null && prefixValues != null
      && meta.isPrompt && batchSize == 1
    }

    /** What attention the token's output must be. */
    ghost function Expected(meta: Metadata, q: Heads, prefix: seq<KV>, ctx: seq<KV>): Heads
      requires att.Valid() && |q| == att.numHeads && att.AllFit(prefix) && att.AllFit(ctx)
    {
      if meta.prefixLength > 0 then att.RelayAll(q, prefix, ctx) else att.AttendAll(q, ctx)
    }

    /** The fused output of token t, from the prefix part with its lse in [head, token] layout and
        the user part with its lse in [token, head] layout. */
    function FuseToken(outPre: Heads, lsePre: seq<seq<real>>, out: Heads, lse: seq<real>, t: nat): (r: Heads)
      requires att.Valid() && |outPre| == |lsePre| == |out| == |lse| == att.numHeads
      requires forall h :: 0 <= h < att.numHeads ==> |outPre[h]| == |out[h]| && t < |lsePre[h]|
    {
      seq(att.numHeads, h requires 0 <= h < att.numHeads =>
        Fuse(att.exp, outPre[h], lsePre[h][t], out[h], lse[h]))
    }

    method Forward(batchSize: nat, seqLen: nat, query: seq<Heads>, key: seq<Heads>, value: seq<Heads>,
                   keyCache: array?<Heads>, valueCache: array?<Heads>, meta: Metadata,
                   prefixKeys: array?<Heads>, prefixValues: array?<Heads>)
      returns (r: Result)
      requires Ready(batchSize, seqLen, query, key, value, keyCache, valueCache, meta, prefixKeys, prefixValues)
      modifies keyCache, valueCache, prefixKeys, prefixValues
      ensures r.AssertionError? <==>
        meta.prefixLength < 0 && !FillAsserted(batchSize, keyCache, valueCache, meta, prefixKeys, prefixValues)
      // the prefix cache changes only in a fill call, and then takes the prompt's keys and values
      ensures prefixKeys != null ==>
        prefixKeys[..] == (if r.Ok? && meta.prefixLength < 0 then key + old(prefixKeys[seqLen..])
                           else old(prefixKeys[..]))
      ensures prefixValues != null ==>
        prefixValues[..] == (if r.Ok? && meta.prefixLength < 0 then value + old(prefixValues[seqLen..])
                             else old(prefixValues[..]))
      // the paged cache takes the new tokens in their slots
      ensures keyCache != null ==>
        keyCache[..] == (if r.Ok? && valueCache != null && meta.slotMapping.Some?
                         then Scatter(old(keyCache[..]), meta.slotMapping.value, key)
                         else old(keyCache[..]))
      ensures valueCache != null ==>
        valueCache[..] == (if r.Ok? && keyCache != null && meta.slotMapping.Some?
                           then Scatter(old(valueCache[..]), meta.slotMapping.value, value)
                           else old(valueCache[..]))
      ensures r.Ok? ==> |r.output| == |query|
      // the memory profiling run
      ensures r.Ok? && !meta.isPrompt && (keyCache == null || valueCache == null) && meta.prefixLength <= 0 ==>
        forall t :: 0 <= t < |query| ==> r.output[t] == seq(att.numHeads, _ => seq(att.headSize, _ => 0.0))
      // every token's output is the attention asked for
      ensures r.Ok? && (meta.isPrompt || (keyCache != null && valueCache != null)) ==>
        var keys := if keyCache != null && valueCache != null then keyCache[..] else [];
        var values := if keyCache != null && valueCache != null then valueCache[..] else [];
        var prefix := if meta.prefixLength > 0
                      then Pair(prefixKeys[..meta.prefixLengthBuffer], prefixValues[..meta.prefixLengthBuffer]) else [];
        Attended(meta, seqLen, query, key, value, keys, values, prefix, r.output)
    {
      if meta.prefixLength < 0 {
        if !(keyCache == null && valueCache == null && prefixKeys != null && prefixValues != null
             && meta.isPrompt && batchSize == 1) {
          return AssertionError;
        }
        FillPrefix(prefixKeys, prefixValues, key, value);
      }
      var prefix: seq<KV> := [];
      var outPre: seq<Heads> := [];
      var lsePre: seq<seq<real>> := [];
      if meta.prefixLength > 0 {
        prefix := Pair(prefixKeys[..meta.prefixLengthBuffer], prefixValues[..meta.prefixLengthBuffer]);
        outPre, lsePre := AttendPrefix(query, prefix);
      }
      if keyCache != null && valueCache != null && meta.slotMapping.Some? {
        ReshapeAndCache(key, value, keyCache, valueCache, meta.slotMapping.value);
        ScatterStored(att, old(keyCache[..]), old(valueCache[..]), meta.slotMapping.value, key, value);
      }
      var keys := if keyCache != null && valueCache != null then keyCache[..] else [];
      var values := if keyCache != null && valueCache != null then valueCache[..] else [];
      var output: seq<Heads>;
      var lse: seq<seq<real>>;
      if meta.isPrompt || (keyCache != null && valueCache != null) {
        output, lse := AttendUser(meta, seqLen, query, key, value, keys, values);
      } else {
        // the memory profiling run
        output := seq(|query|, _ => seq(att.numHeads, _ => seq(att.headSize, _ => 0.0)));
        lse := seq(|query|, _ => seq(att.numHeads, _ => 0.0));
      }
      if meta.prefixLength > 0 {
        var plain := output;
        output := FuseAll(outPre, lsePre, plain, lse);
        if meta.isPrompt || (keyCache != null && valueCache != null) {
          forall t | 0 <= t < |query|
            ensures output[t] == att.RelayAll(query[t], prefix, UserContext(meta, seqLen, key, value, keys, values, t))
          {
            var ctx := UserContext(meta, seqLen, key, value, keys, values, t);
            FusedIsRelay(query, prefix, outPre, lsePre, ctx, plain[t], lse[t], t);
          }
        }
      }
      return Ok(output);
    }

    /** The attention of every token to the prefix, and its lse in [head, token] layout. */
    method AttendPrefix(query: seq<Heads>, prefix: seq<KV>) returns (out: seq<Heads>, lse: seq<seq<real>>)
      requires att.Valid() && att.AllFit(prefix)
      requires forall t :: 0 <= t < |query| ==> |query[t]| == att.numHeads
      ensures IsPrefixPart(query, prefix, out, lse)
    {
      var n := |query|;
      out := seq(n, t requires 0 <= t < n => att.AttendAll(query[t], prefix));
      lse := seq(att.numHeads, h requires 0 <= h < att.numHeads =>
        seq(n, t requires 0 <= t < n => att.Lse(query[t][h], h, prefix)));
    }

    ghost predicate IsPrefixPart(query: seq<Heads>, prefix: seq<KV>, out: seq<Heads>, lse: seq<seq<real>>)
      requires att.Valid() && att.AllFit(prefix)
      requires forall t :: 0 <= t < |query| ==> |query[t]| == att.numHeads
    {
      && |out| == |query| && |lse| == att.numHeads
      && (forall t :: 0 <= t < |query| ==> out[t] == att.AttendAll(query[t], prefix))
      && (forall h :: 0 <= h < att.numHeads ==> |lse[h]| == |query|)
      && forall h, t :: 0 <= h < att.numHeads && 0 <= t < |query| ==> lse[h][t] == att.Lse(query[t][h], h, prefix)
    }

    /** The attention of every token to its user context, and its lse in [token, head] layout. */
    method AttendUser(meta: Metadata, seqLen: nat, query: seq<Heads>, key: seq<Heads>, value: seq<Heads>,
                      keys: seq<Heads>, values: seq<Heads>)
      returns (out: seq<Heads>, lse: seq<seq<real>>)
      requires Contexts(meta, seqLen, query, key, value, keys, values)
      ensures |out| == |lse| == |query|
      ensures forall t :: 0 <= t < |query| ==>
        var ctx := UserContext(meta, seqLen, key, value, keys, values, t);
        att.AllFit(ctx) && IsUserPart(query[t], ctx, out[t], lse[t])
    {
      var n := |query|;
      forall t | 0 <= t < n
        ensures att.AllFit(UserContext(meta, seqLen, key, value, keys, values, t))
      {
        ContextFits(att, meta, seqLen, key, value, keys, values, t);
      }
      out := seq(n, t requires 0 <= t < n =>
        att.AttendAll(query[t], UserContext(meta, seqLen, key, value, keys, values, t)));
      lse := seq(n, t requires 0 <= t < n =>
        seq(att.numHeads, h requires 0 <= h < att.numHeads =>
          att.Lse(query[t][h], h, UserContext(meta, seqLen, key, value, keys, values, t))));
    }

    /** Every token has a user context. */
    ghost predicate Contexts(meta: Metadata, seqLen: nat, query: seq<Heads>, key: seq<Heads>, value: seq<Heads>,
                             keys: seq<Heads>, values: seq<Heads>)
    {
      && att.Valid() && seqLen > 0 && |query| == |key| && Stored(att, key, value) && Stored(att, keys, values)
      && (forall t :: 0 <= t < |query| ==> |query[t]| == att.numHeads)
      && (!meta.isPrompt ==>
            && |meta.blockTables| == |meta.contextLens| == |query|
            && forall t :: 0 <= t < |query| ==>
                 TableCovers(meta.blockTables[t], meta.blockSize, meta.contextLens[t], |keys|))
    }

    /** Every token's output is the attention asked for. */
    ghost predicate Attended(meta: Metadata, seqLen: nat, query: seq<Heads>, key: seq<Heads>, value: seq<Heads>,
                             keys: seq<Heads>, values: seq<Heads>, prefix: seq<KV>, output: seq<Heads>)
    {
      && Contexts(meta, seqLen, query, key, value, keys, values) && att.AllFit(prefix) && |output| == |query|
      && forall t :: 0 <= t < |query| ==>
           var ctx := UserContext(meta, seqLen, key, value, keys, values, t);
           att.AllFit(ctx) && output[t] == Expected(meta, query[t], prefix, ctx)
    }

    ghost predicate IsUserPart(q: Heads, ctx: seq<KV>, out: Heads, lse: seq<real>)
      requires att.Valid() && |q| == att.numHeads && att.AllFit(ctx)
    {
      && out == att.AttendAll(q, ctx) && |lse| == att.numHeads
      && forall h :: 0 <= h < att.numHeads ==> lse[h] == att.Lse(q[h], h, ctx)
    }

    /** The fusion of the two parts, token by token. */
    method FuseAll(outPre: seq<Heads>, lsePre: seq<seq<real>>, out: seq<Heads>, lse: seq<seq<real>>)
      returns (fused: seq<Heads>)
      requires att.Valid() && |outPre| == |out| == |lse| && |lsePre| == att.numHeads
      requires forall h :: 0 <= h < att.numHeads ==> |lsePre[h]| == |out|
      requires forall t :: 0 <= t < |out| ==>
        && |outPre[t]| == |out[t]| == |lse[t]| == att.numHeads
        && forall h :: 0 <= h < att.numHeads ==> |outPre[t][h]| == |out[t][h]|
      ensures |fused| == |out|
      ensures forall t :: 0 <= t < |out| ==> fused[t] == FuseToken(outPre[t], lsePre, out[t], lse[t], t)
    {
      var n := |out|;
      fused := seq(n, t requires 0 <= t < n => FuseToken(outPre[t], lsePre, out[t], lse[t], t));
    }

    /** The fusion of the two parts is the relay of the two contexts. */
    lemma FusedIsRelay(query: seq<Heads>, prefix: seq<KV>, outPre: seq<Heads>, lsePre: seq<seq<real>>,
                       ctx: seq<KV>, out: Heads, lse: seq<real>, t: nat)
      requires att.Valid() && att.AllFit(prefix) && att.AllFit(ctx) && t < |query|
      requires forall u :: 0 <= u < |query| ==> |query[u]| == att.numHeads
      requires IsPrefixPart(query, prefix, outPre, lsePre) && IsUserPart(query[t], ctx, out, lse)
      ensures |outPre[t]| == |out| == att.numHeads
      ensures forall h :: 0 <= h < att.numHeads ==> |outPre[t][h]| == |out[h]|
      ensures FuseToken(outPre[t], lsePre, out, lse, t) == att.RelayAll(query[t], prefix, ctx)
    {
    }
  }

  // ---- the fusion by the kernel ----

  /** The two parts as the kernel call gets them: the lse of the prefix part in [head, token] layout, to
      be transposed, that of the user part in [token, head] layout. The strides are any. */
  ghost predicate PassedTo(att: Attention, call: FusionKernel.Call,
                           outPre: seq<Heads>, lsePre: seq<seq<real>>, out: seq<Heads>, lse: seq<seq<real>>)
  {
    && PartsFit(att, outPre, lsePre, out, lse)
    && call.Valid() && call.exp == att.exp && call.transSys && !call.transUsr
    && call.outSys.tokens == |out| && call.outSys.heads == att.numHeads && call.outSys.headSize == att.headSize
    && forall t: nat, h: nat :: call.InGrid(t, h) ==>
         && call.lseSys.Get(h, t) == lsePre[h][t] && call.lseUsr.Get(t, h) == lse[t][h]
         && forall c: nat :: c < att.headSize ==>
              call.outSys.Get(t, h, c) == outPre[t][h][c] && call.outUsr.Get(t, h, c) == out[t][h][c]
  }

  ghost predicate PartsFit(
      att: Attention, outPre: seq<Heads>, lsePre: seq<seq<real>>, out: seq<Heads>, lse: seq<seq<real>>)
  {
    && att.Valid() && |outPre| == |out| == |lse| && |lsePre| == att.numHeads
    && (forall h :: 0 <= h < att.numHeads ==> |lsePre[h]| == |out|)
    && forall t :: 0 <= t < |out| ==>
         && |outPre[t]| == |out[t]| == |lse[t]| == att.numHeads
         && forall h :: 0 <= h < att.numHeads ==> |outPre[t][h]| == |out[t][h]| == att.headSize
  }

  /** What the layer's fusion gives is the tensor form of the operator. */
  lemma FuseTokenIsNative(
      layer: AttentionLayer, call: FusionKernel.Call, outPre: seq<Heads>, lsePre: seq<seq<real>>, out: seq<Heads>,
      lse: seq<seq<real>>, t: nat, h: nat, c: nat)
    requires PassedTo(layer.att, call, outPre, lsePre, out, lse) && call.InTensor(t, h, c)
    ensures layer.FuseToken(outPre[t], lsePre, out[t], lse[t], t)[h][c] == call.Native(t, h, c)
  {
    assert call.lseSys.Transpose().Get(t, h) == lsePre[h][t];
  }

  /** The kernel, given the two parts in aligned buffers and launched over the grid in any order,
      computes the layer's fusion. */
  method FuseAllByKernel(
      layer: AttentionLayer, call: FusionKernel.Call, order: seq<(nat, nat)>, ghost outPre: seq<Heads>,
      ghost lsePre: seq<seq<real>>, ghost out: seq<Heads>, ghost lse: seq<seq<real>>)
    returns (fused: array<real>)
    requires PassedTo(layer.att, call, outPre, lsePre, out, lse)
    requires FusionKernel.Aligned(call) && FusionKernel.RunsGridOnce(call, order)
    ensures forall t: nat, h: nat, c: nat :: call.InTensor(t, h, c) ==>
      && call.OutAt(t, h, c) < fused.Length
      && fused[call.OutAt(t, h, c)] == layer.FuseToken(outPre[t], lsePre, out[t], lse[t], t)[h][c]
  {
    ghost var stores;
    fused, stores := FusionKernel.FuseByKernel(call, order);
    forall t: nat, h: nat, c: nat | call.InTensor(t, h, c)
      ensures fused[call.OutAt(t, h, c)] == layer.FuseToken(outPre[t], lsePre, out[t], lse[t], t)[h][c]
    {
      FuseTokenIsNative(layer, call, outPre, lsePre, out, lse, t, h, c);
    }
  }

  lemma {:induction false} ScatterStored(
      att: Attention, keys: seq<Heads>, values: seq<Heads>, slots: seq<int>, key: seq<Heads>, value: seq<Heads>)
    requires Stored(att, keys, values) && Stored(att, key, value) && |key| == |slots|
    requires forall t :: 0 <= t < |slots| ==> slots[t] < |keys|
    ensures Stored(att, Scatter(keys, slots, key), Scatter(values, slots, value))
  {
    if slots != [] {
      var n := |slots| - 1;
      ScatterStored(att, keys, values, slots[..n], key[..n], value[..n]);
    }
  }

  lemma ContextFits(att: Attention, meta: Metadata, seqLen: nat, key: seq<Heads>, value: seq<Heads>,
                    keys: seq<Heads>, values: seq<Heads>, t: nat)
    requires Stored(att, key, value) && t < |key| && seqLen > 0 && Stored(att, keys, values)
    requires !meta.isPrompt ==>
      && t < |meta.blockTables| && t < |meta.contextLens|
      && TableCovers(meta.blockTables[t], meta.blockSize, meta.contextLens[t], |keys|)
    ensures att.AllFit(UserContext(meta, seqLen, key, value, keys, values, t))
  {
  }

  // ---- the caches and the layers of the model ----

  lemma {:induction false} ScatterGet(cache: seq<Heads>, slots: seq<int>, tokens: seq<Heads>, t: nat)
    requires |slots| == |tokens| && forall u :: 0 <= u < |slots| ==> slots[u] < |cache|
    requires t < |slots| && slots[t] >= 0
    requires forall u :: t < u < |slots| ==> slots[u] != slots[t]
    ensures Scatter(cache, slots, tokens)[slots[t]] == tokens[t]
  {
    var n := |slots| - 1;
    if t < n {
      ScatterGet(cache, slots[..n], tokens[..n], t);
    }
  }

  lemma {:induction false} ScatterKeeps(cache: seq<Heads>, slots: seq<int>, tokens: seq<Heads>, s: nat)
    requires |slots| == |tokens| && forall u :: 0 <= u < |slots| ==> slots[u] < |cache|
    requires s < |cache| && forall u :: 0 <= u < |slots| ==> slots[u] != s
    ensures Scatter(cache, slots, tokens)[s] == cache[s]
  {
    if slots != [] {
      var n := |slots| - 1;
      ScatterKeeps(cache, slots[..n], tokens[..n], s);
    }
  }

  /** The last `added` positions take the tokens from `start` on, and no other token takes a position. */
  ghost predicate Appends(slots: seq<int>, at: seq<nat>, start: nat, added: nat) {
    && added <= |at| && start + added <= |slots|
    && forall u, j :: 0 <= u < |slots| && 0 <= j < |at| ==>
         (slots[u] == at[j] <==> j - (|at| - added) == u - start && |at| - added <= j)
  }

  lemma ScatterAt(cache: seq<Heads>, slots: seq<int>, tokens: seq<Heads>, at: seq<nat>, start: nat, added: nat, j: nat)
    requires |slots| == |tokens| && forall u :: 0 <= u < |slots| ==> slots[u] < |cache|
    requires Appends(slots, at, start, added) && j < |at| && at[j] < |cache|
    ensures Scatter(cache, slots, tokens)[at[j]]
         == if j < |at| - added then cache[at[j]] else tokens[start + (j - (|at| - added))]
  {
    if j < |at| - added {
      ScatterKeeps(cache, slots, tokens, at[j]);
    } else {
      ScatterGet(cache, slots, tokens, start + (j - (|at| - added)));
    }
  }

  /** A cache after the run: the last `added` positions hold the tokens from `start` on, the others
      what they held. */
  ghost predicate Appended(cache': seq<Heads>, cache: seq<Heads>, tokens: seq<Heads>, at: seq<nat>, start: nat, added: nat) {
    && |cache'| == |cache| && added <= |at| && start + added <= |tokens|
    && (forall j :: 0 <= j < |at| ==> at[j] < |cache|)
    && forall j :: 0 <= j < |at| ==>
         cache'[at[j]] == if j < |at| - added then cache[at[j]] else tokens[start + (j - (|at| - added))]
  }

  lemma ScatterAppends(cache: seq<Heads>, slots: seq<int>, tokens: seq<Heads>, at: seq<nat>, start: nat, added: nat)
    requires |slots| == |tokens| && forall u :: 0 <= u < |slots| ==> slots[u] < |cache|
    requires Appends(slots, at, start, added) && forall j :: 0 <= j < |at| ==> at[j] < |cache|
    ensures Appended(Scatter(cache, slots, tokens), cache, tokens, at, start, added)
  {
    forall j | 0 <= j < |at|
      ensures Scatter(cache, slots, tokens)[at[j]]
           == if j < |at| - added then cache[at[j]] else tokens[start + (j - (|at| - added))]
    {
      ScatterAt(cache, slots, tokens, at, start, added, j);
    }
  }

  lemma GatherExtends(keys': seq<Heads>, values': seq<Heads>, keys: seq<Heads>, values: seq<Heads>,
                      key: seq<Heads>, value: seq<Heads>, at: seq<nat>, start: nat, added: nat)
    requires |keys| == |values| && |key| == |value|
    requires Appended(keys', keys, key, at, start, added) && Appended(values', values, value, at, start, added)
    ensures Gather(keys', values', at)
         == Gather(keys, values, at[..|at| - added]) + Pair(key, value)[start..start + added]
  {
  }

  lemma ScatterExtends(keys: seq<Heads>, values: seq<Heads>, slots: seq<int>, key: seq<Heads>, value: seq<Heads>,
                       at: seq<nat>, start: nat, added: nat)
    requires |keys| == |values| && |slots| == |key| == |value|
    requires forall u :: 0 <= u < |slots| ==> slots[u] < |keys|
    requires forall j :: 0 <= j < |at| ==> at[j] < |keys|
    requires Appends(slots, at, start, added)
    ensures Gather(Scatter(keys, slots, key), Scatter(values, slots, value), at)
         == Gather(keys, values, at[..|at| - added]) + Pair(key, value)[start..start + added]
  {
    ScatterAppends(keys, slots, key, at, start, added);
    ScatterAppends(values, slots, value, at, start, added);
    GatherExtends(Scatter(keys, slots, key), Scatter(values, slots, value), keys, values, key, value, at, start, added);
  }

  /** The last `added` positions of a request take tokens start, start + 1, ... of the batch, and no
      other token of the batch is given any of the request's slots. */
  ghost predicate Extends(slots: seq<int>, table: seq<nat>, blockSize: nat, len: nat, start: nat, added: nat)
    requires blockSize > 0 && forall j: nat :: j < len ==> j / blockSize < |table|
  {
    Appends(slots, Positions(table, blockSize, len), start, added)
  }

  /** Writing a run's tokens extends the paged context of a request by exactly its own new tokens,
      whatever the other requests of the batch write. */
  lemma ContextExtends(keys: seq<Heads>, values: seq<Heads>, slots: seq<int>, key: seq<Heads>, value: seq<Heads>,
                       table: seq<nat>, blockSize: nat, len: nat, start: nat, added: nat)
    requires |keys| == |values| && |slots| == |key| == |value|
    requires forall u :: 0 <= u < |slots| ==> slots[u] < |keys|
    requires TableCovers(table, blockSize, len, |keys|)
    requires Extends(slots, table, blockSize, len, start, added)
    ensures PagedContext(Scatter(keys, slots, key), Scatter(values, slots, value), table, blockSize, len)
         == PagedContext(keys, values, table, blockSize, len - added) + Pair(key, value)[start..start + added]
  {
    var at := Positions(table, blockSize, len);
    assert at[..len - added] == Positions(table, blockSize, len - added);
    ScatterExtends(keys, values, slots, key, value, at, start, added);
  }

  /** The keys and values a model layer hands to the attention layer. */
  function KeysOf<S(!new)>(l: Layer<S>, states: seq<S>): (k: seq<Heads>)
    ensures |k| == |states|
  {
    seq(|states|, t requires 0 <= t < |states| => l.kv(states[t]).k)
  }

  function ValuesOf<S(!new)>(l: Layer<S>, states: seq<S>): (v: seq<Heads>)
    ensures |v| == |states|
  {
    seq(|states|, t requires 0 <= t < |states| => l.kv(states[t]).v)
  }

  /** In a prompt run over a batch laid out flat, the user context of token i of sequence b is the
      keys and values of that sequence's tokens 0..i, so the layer output is the relay layer (or,
      without a prefix, the causal layer) of that sequence alone. */
  lemma PromptIsRelayLayer<S(!new)>(
      l: Layer<S>, att: AttentionLayer, meta: Metadata, seqLen: nat, states: seq<S>, prefix: seq<KV>,
      keys: seq<Heads>, values: seq<Heads>, b: nat, i: nat)
    requires Shaped(l) && att.att == l.att && l.att.AllFit(prefix) && |keys| == |values|
    requires meta.isPrompt && i < seqLen && b * seqLen + seqLen <= |states|
    ensures
      var t := b * seqLen + i;
      var own := states[b * seqLen..b * seqLen + seqLen];
      var ctx := UserContext(meta, seqLen, KeysOf(l, states), ValuesOf(l, states), keys, values, t);
      && ctx == KVs(l, own[..i + 1])
      && l.finish(states[t], att.Expected(meta, l.query(states[t]), prefix, ctx))
         == (if meta.prefixLength > 0 then RelayLayer(l, prefix, own) else CausalLayer(l, own))[i]
  {
    var t := b * seqLen + i;
    var own := states[b * seqLen..b * seqLen + seqLen];
    DivModUnique(b, i, seqLen);
    var ctx := UserContext(meta, seqLen, KeysOf(l, states), ValuesOf(l, states), keys, values, t);
    assert ctx == KVs(l, own[..i + 1]);
    assert own[i] == states[t];
  }

  /** In a decoding run, the layer output of request b is one step of the model's decoding: relay
      attention to the prefix and to the request's context extended by the new token. */
  lemma DecodeIsRelayStep<S(!new)>(
      l: Layer<S>, att: AttentionLayer, meta: Metadata, states: seq<S>, prefix: seq<KV>,
      keys: seq<Heads>, values: seq<Heads>, b: nat)
    requires Shaped(l) && att.att == l.att && l.att.AllFit(prefix) && Stored(l.att, keys, values)
    requires !meta.isPrompt && b < |states|
    requires meta.slotMapping.Some? && |meta.slotMapping.value| == |states|
    requires forall u :: 0 <= u < |states| ==> meta.slotMapping.value[u] < |keys|
    requires b < |meta.blockTables| && b < |meta.contextLens| && meta.contextLens[b] > 0
    requires TableCovers(meta.blockTables[b], meta.blockSize, meta.contextLens[b], |keys|)
    requires Extends(meta.slotMapping.value, meta.blockTables[b], meta.blockSize, meta.contextLens[b], b, 1)
    ensures
      var key, value := KeysOf(l, states), ValuesOf(l, states);
      var before := PagedContext(keys, values, meta.blockTables[b], meta.blockSize, meta.contextLens[b] - 1);
      var ctx := UserContext(meta, 1, key, value, Scatter(keys, meta.slotMapping.value, key),
                             Scatter(values, meta.slotMapping.value, value), b);
      && ctx == before + [l.kv(states[b])]
      && l.att.AllFit(ctx)
      && att.Expected(meta, l.query(states[b]), prefix, ctx)
         == (if meta.prefixLength > 0 then l.att.RelayAll(l.query(states[b]), prefix, before + [l.kv(states[b])])
             else l.att.AttendAll(l.query(states[b]), before + [l.kv(states[b])]))
  {
    var key, value := KeysOf(l, states), ValuesOf(l, states);
    ContextExtends(keys, values, meta.slotMapping.value, key, value,
                   meta.blockTables[b], meta.blockSize, meta.contextLens[b], b, 1);
    assert Pair(key, value)[b..b + 1] == [l.kv(states[b])];
  }
}
