/** One layer of a model with its own caches, and what it does for every request of a batch in each of
    the three kinds of run: filling the prefix, a prompt run and a decoding run. */
module PagedLayer {
  import opened Arithmetic
  import opened Options
  import opened RelayModel
  import opened PagedAttention

  // ---- one layer ----

  /** What a layer makes of one state and the context it attends to. (To be total, it is the state
      itself where the shapes do not fit.) */
  ghost function StepOut<S(!new)>(l: Layer<S>, s: S, ctx: seq<KV>): S {
    if Shaped(l) && l.att.AllFit(ctx) then l.finish(s, l.att.AttendAll(l.query(s), ctx)) else s
  }

  /** In rows of seqLen tokens, the output of token t attends to the prefix and to its row up to it. */
  ghost predicate IsRowOutput<S(!new)>(l: Layer<S>, prefix: seq<KV>, seqLen: nat, states: seq<S>, next: seq<S>, t: nat)
    requires Shaped(l) && seqLen > 0 && t < |states| == |next|
  {
    next[t] == StepOut(l, states[t], prefix + KVs(l, states[t - t % seqLen..t + 1]))
  }

  ghost predicate AreRowOutputs<S(!new)>(l: Layer<S>, prefix: seq<KV>, seqLen: nat, states: seq<S>, next: seq<S>)
    requires Shaped(l) && seqLen > 0
  {
    |next| == |states| && forall t: nat :: t < |states| ==> IsRowOutput(l, prefix, seqLen, states, next, t)
  }

  /** A layer and its four caches. */
  class DecoderLayer<S(!new)> {
    const l: Layer<S>
    const attention: AttentionLayer
    const keyCache: array<Heads>
    const valueCache: array<Heads>
    const prefixKeys: array<Heads>
    const prefixValues: array<Heads>

    constructor (l: Layer<S>, slots: nat, capacity: nat)
      requires Shaped(l)
      ensures Valid() && this.l == l && keyCache.Length == slots && prefixKeys.Length == capacity
      ensures fresh(Arrays())
    {
      var zero: Heads := seq(l.att.numKvHeads, _ => seq(l.att.headSize, _ => 0.0));
      this.l := l;
      attention := new AttentionLayer(l.att);
      keyCache := new Heads[slots](_ => zero);
      valueCache := new Heads[slots](_ => zero);
      prefixKeys := new Heads[capacity](_ => zero);
      prefixValues := new Heads[capacity](_ => zero);
    }

    ghost function Arrays(): set<array<Heads>> {
      {keyCache, valueCache, prefixKeys, prefixValues}
    }

    ghost predicate Valid()
      reads Arrays()
    {
      && Shaped(l) && attention.att == l.att
      && keyCache != valueCache && keyCache != prefixKeys && keyCache != prefixValues
      && valueCache != prefixKeys && valueCache != prefixValues && prefixKeys != prefixValues
      && Stored(l.att, keyCache[..], valueCache[..])
      && Stored(l.att, prefixKeys[..], prefixValues[..])
    }

    /** The first entries of the prefix cache. */
    ghost function Prefix(n: nat): (ctx: seq<KV>)
      requires Valid() && n <= prefixKeys.Length
      reads Arrays()
      ensures |ctx| == n && l.att.AllFit(ctx)
    {
      Pair(prefixKeys[..n], prefixValues[..n])
    }

    /** What the paged cache holds for a request. */
    ghost function Context(table: seq<nat>, blockSize: nat, len: nat): (ctx: seq<KV>)
      requires Valid() && TableCovers(table, blockSize, len, keyCache.Length)
      reads Arrays()
      ensures |ctx| == len && l.att.AllFit(ctx)
    {
      PagedContext(keyCache[..], valueCache[..], table, blockSize, len)
    }

    /** The call that fills the prefix cache. */
    method Fill(states: seq<S>) returns (next: seq<S>)
      requires Valid() && 0 < |states| <= prefixKeys.Length
      modifies prefixKeys, prefixValues
      ensures Valid() && Prefix(|states|) == KVs(l, states)
      ensures next == CausalLayer(l, states)
    {
      var n := |states|;
      var meta := Metadata(-1, 0, true, None, [], [], 0);
      var r := attention.Forward(1, n, QueriesOf(l, states), KeysOf(l, states), ValuesOf(l, states),
                                 null, null, meta, prefixKeys, prefixValues);
      next := Finish(l, states, r.output);
      FillOutputs(attention, l, meta, states, r.output);
      PairIsKVs(l, states, 0, n);
    }

    /** The call of a prompt run, over sequences of seqLen tokens laid one after the other. */
    method Prompt(batchSize: nat, seqLen: nat, states: seq<S>, slots: seq<int>, prefixLength: nat) returns (next: seq<S>)
      requires Valid() && seqLen > 0 && |states| == |slots| == batchSize * seqLen
      requires prefixLength <= prefixKeys.Length
      requires forall t :: 0 <= t < |slots| ==> slots[t] < keyCache.Length
      modifies Arrays()
      ensures Valid() && prefixKeys[..] == old(prefixKeys[..]) && prefixValues[..] == old(prefixValues[..])
      ensures keyCache[..] == Scatter(old(keyCache[..]), slots, KeysOf(l, states))
      ensures valueCache[..] == Scatter(old(valueCache[..]), slots, ValuesOf(l, states))
      ensures AreRowOutputs(l, Prefix(prefixLength), seqLen, states, next)
    {
      var meta := Metadata(prefixLength, prefixLength, true, Some(slots), [], [], 0);
      var r := attention.Forward(batchSize, seqLen, QueriesOf(l, states), KeysOf(l, states), ValuesOf(l, states),
                                 keyCache, valueCache, meta, prefixKeys, prefixValues);
      next := Finish(l, states, r.output);
      PromptOutputs(attention, l, meta, seqLen, states, keyCache[..], valueCache[..], Prefix(prefixLength), r.output);
    }

    /** The call of a decoding run, one token for each request. */
    method Decode(states: seq<S>, slots: seq<int>, tables: seq<seq<nat>>, lens: seq<nat>, blockSize: nat, prefixLength: nat)
      returns (next: seq<S>)
      requires Valid() && |states| == |slots| == |tables| == |lens| && prefixLength <= prefixKeys.Length
      requires forall b :: 0 <= b < |slots| ==> slots[b] < keyCache.Length
      requires forall b :: 0 <= b < |tables| ==> lens[b] > 0 && TableCovers(tables[b], blockSize, lens[b], keyCache.Length)
      modifies Arrays()
      ensures Valid() && prefixKeys[..] == old(prefixKeys[..]) && prefixValues[..] == old(prefixValues[..])
      ensures keyCache[..] == Scatter(old(keyCache[..]), slots, KeysOf(l, states))
      ensures valueCache[..] == Scatter(old(valueCache[..]), slots, ValuesOf(l, states))
      ensures |next| == |states|
      ensures forall b :: 0 <= b < |states| ==>
        next[b] == StepOut(l, states[b], Prefix(prefixLength) + Context(tables[b], blockSize, lens[b]))
    {
      var n := |states|;
      var meta := Metadata(prefixLength, prefixLength, false, Some(slots), tables, lens, blockSize);
      var r := attention.Forward(n, 1, QueriesOf(l, states), KeysOf(l, states), ValuesOf(l, states),
                                 keyCache, valueCache, meta, prefixKeys, prefixValues);
      next := Finish(l, states, r.output);
      DecodeOutputs(attention, l, meta, states, keyCache[..], valueCache[..], Prefix(prefixLength), r.output);
    }

    /** The layer holds the prefix and, of every request, all but the states still to come. */
    ghost predicate Serving(ps: seq<S>, us: seq<seq<S>>, ats: seq<seq<nat>>, plan: seq<Entry>)
      reads Arrays()
    {
      && Valid() && |ps| <= prefixKeys.Length && Prefix(|ps|) == KVs(l, ps)
      && Held(l, us, ats, plan, keyCache[..], valueCache[..])
    }

    lemma HeldFor(ps: seq<S>, us: seq<seq<S>>, ats: seq<seq<nat>>, a: nat)
      requires Serving(ps, us, ats, Nothing(|us|)) && a < |us|
      ensures |ats| == |us| && HeldAt(l, us[a], ats[a], |us[a]|, keyCache[..], valueCache[..])
    {
      assert Nothing(|us|)[a].added == 0;
    }

    lemma ForgetOne(ps: seq<S>, us: seq<seq<S>>, ats: seq<seq<nat>>, a: nat)
      requires Serving(ps, us, ats, Nothing(|us|)) && a < |us|
      ensures Serving(ps, Cut(us, a), Cut(ats, a), Nothing(|us| - 1))
    {
      HeldCut(l, us, ats, a, keyCache[..], valueCache[..]);
    }

    /** A prompt run at this layer, for all requests. */
    method ServePrompt(batchSize: nat, seqLen: nat, states: seq<S>, mapping: seq<int>, prefixLength: nat,
                       ghost ps: seq<S>, ghost us: seq<seq<S>>, ghost ats: seq<seq<nat>>, ghost plan: seq<Entry>)
      returns (next: seq<S>)
      requires Serving(ps, us, ats, plan) && prefixLength == |ps|
      requires seqLen > 0 && |states| == |mapping| == batchSize * seqLen
      requires Planned(ats, plan, mapping, keyCache.Length) && Placed(states, plan, us)
      requires forall a :: 0 <= a < |us| ==> IsRow(plan[a], seqLen, |us[a]|)
      modifies Arrays()
      ensures Serving(ps, us, ats, Nothing(|us|))
      ensures |next| == |states| && Placed(next, plan, AllNext(l, ps, us))
    {
      ghost var keys, values := keyCache[..], valueCache[..];
      next := Prompt(batchSize, seqLen, states, mapping, prefixLength);
      assert Prefix(|ps|) == KVs(l, ps);
      LayerHolds(l, us, ats, plan, states, mapping, keys, values);
      forall a | 0 <= a < |us|
        ensures PlacedAt(next, plan[a], UserNext(l, ps, us[a]))
      {
        PromptNext(l, ps, us[a], plan[a], seqLen, states, next);
      }
    }

    /** A decoding run at this layer, for all requests. */
    method ServeDecode(states: seq<S>, mapping: seq<int>, tables: seq<seq<nat>>, lens: seq<nat>, blockSize: nat,
                       prefixLength: nat,
                       ghost ps: seq<S>, ghost us: seq<seq<S>>, ghost ats: seq<seq<nat>>, ghost plan: seq<Entry>)
      returns (next: seq<S>)
      requires Serving(ps, us, ats, plan) && prefixLength == |ps|
      requires |states| == |mapping| == |tables| == |lens|
      requires forall b :: 0 <= b < |tables| ==> lens[b] > 0 && TableCovers(tables[b], blockSize, lens[b], keyCache.Length)
      requires Planned(ats, plan, mapping, keyCache.Length) && Placed(states, plan, us)
      requires forall a :: 0 <= a < |us| ==> IsStep(plan[a], ats[a], tables, lens, blockSize, keyCache.Length)
      modifies Arrays()
      ensures Serving(ps, us, ats, Nothing(|us|))
      ensures |next| == |states| && Placed(next, plan, AllNext(l, ps, us))
    {
      ghost var keys, values := keyCache[..], valueCache[..];
      next := Decode(states, mapping, tables, lens, blockSize, prefixLength);
      LayerHolds(l, us, ats, plan, states, mapping, keys, values);
      forall a | 0 <= a < |us|
        ensures PlacedAt(next, plan[a], UserNext(l, ps, us[a]))
      {
        DecodeNext(l, ps, us[a], ats[a], plan[a], states, next, keyCache[..], valueCache[..]);
      }
    }
  }

  function QueriesOf<S(!new)>(l: Layer<S>, states: seq<S>): (q: seq<Heads>)
    ensures |q| == |states|
  {
    seq(|states|, t requires 0 <= t < |states| => l.query(states[t]))
  }

  /** The rest of the layer, token by token. */
  function Finish<S(!new)>(l: Layer<S>, states: seq<S>, output: seq<Heads>): (next: seq<S>)
    requires |output| == |states|
    ensures |next| == |states|
  {
    seq(|states|, t requires 0 <= t < |states| => l.finish(states[t], output[t]))
  }

  lemma FillOutputs<S(!new)>(attention: AttentionLayer, l: Layer<S>, meta: Metadata, states: seq<S>, output: seq<Heads>)
    requires Shaped(l) && attention.att == l.att && meta.isPrompt && meta.prefixLength < 0
    requires attention.Attended(meta, |states|, QueriesOf(l, states), KeysOf(l, states), ValuesOf(l, states), [], [], [], output)
    ensures Finish(l, states, output) == CausalLayer(l, states)
  {
    forall t | 0 <= t < |states|
      ensures Finish(l, states, output)[t] == CausalLayer(l, states)[t]
    {
      RowStart(0, t, |states|);
      PairIsKVs(l, states, 0, t + 1);
    }
  }

  /** The row that position k of row b lies in starts at b * seqLen. */
  lemma RowStart(b: nat, k: nat, seqLen: nat)
    requires k < seqLen
    ensures (b * seqLen + k) / seqLen == b && (b * seqLen + k) % seqLen == k
  {
    DivModUnique(b, k, seqLen);
  }

  lemma PromptOutputs<S(!new)>(attention: AttentionLayer, l: Layer<S>, meta: Metadata, seqLen: nat, states: seq<S>,
                               keys: seq<Heads>, values: seq<Heads>, prefix: seq<KV>, output: seq<Heads>)
    requires Shaped(l) && attention.att == l.att && meta.isPrompt && meta.prefixLength == |prefix| && seqLen > 0
    requires attention.Attended(meta, seqLen, QueriesOf(l, states), KeysOf(l, states), ValuesOf(l, states),
                                keys, values, prefix, output)
    ensures AreRowOutputs(l, prefix, seqLen, states, Finish(l, states, output))
  {
    forall t: nat | t < |states|
      ensures IsRowOutput(l, prefix, seqLen, states, Finish(l, states, output), t)
    {
      PairIsKVs(l, states, t - t % seqLen, t + 1);
      ExpectedIsStep(attention, l, meta, states[t], prefix, KVs(l, states[t - t % seqLen..t + 1]));
    }
  }

  lemma DecodeOutputs<S(!new)>(attention: AttentionLayer, l: Layer<S>, meta: Metadata, states: seq<S>,
                               keys: seq<Heads>, values: seq<Heads>, prefix: seq<KV>, output: seq<Heads>)
    requires Shaped(l) && attention.att == l.att && !meta.isPrompt && meta.prefixLength == |prefix|
    requires attention.Attended(meta, 1, QueriesOf(l, states), KeysOf(l, states), ValuesOf(l, states),
                                keys, values, prefix, output)
    requires forall b :: 0 <= b < |states| ==> meta.contextLens[b] > 0
    ensures forall b :: 0 <= b < |states| ==>
      var ctx := PagedContext(keys, values, meta.blockTables[b], meta.blockSize, meta.contextLens[b]);
      Finish(l, states, output)[b] == StepOut(l, states[b], prefix + ctx)
  {
    forall b | 0 <= b < |states|
      ensures
        var ctx := PagedContext(keys, values, meta.blockTables[b], meta.blockSize, meta.contextLens[b]);
        Finish(l, states, output)[b] == StepOut(l, states[b], prefix + ctx)
    {
      ExpectedIsStep(attention, l, meta, states[b], prefix,
                     PagedContext(keys, values, meta.blockTables[b], meta.blockSize, meta.contextLens[b]));
    }
  }

  lemma PairIsKVs<S(!new)>(l: Layer<S>, states: seq<S>, i: nat, j: nat)
    requires Shaped(l) && i <= j <= |states|
    ensures Pair(KeysOf(l, states), ValuesOf(l, states))[i..j] == KVs(l, states[i..j])
  {
  }

  /** What the attention layer promises is attention to the prefix followed by the user context, with
      or without a prefix. */
  lemma ExpectedIsStep<S(!new)>(attention: AttentionLayer, l: Layer<S>, meta: Metadata, s: S, prefix: seq<KV>, ctx: seq<KV>)
    requires Shaped(l) && attention.att == l.att && l.att.AllFit(prefix) && l.att.AllFit(ctx) && ctx != []
    requires meta.prefixLength > 0 <==> prefix != []
    ensures l.finish(s, attention.Expected(meta, l.query(s), prefix, ctx)) == StepOut(l, s, prefix + ctx)
  {
    assert l.att.AllFit(prefix + ctx);
    if meta.prefixLength > 0 {
      RelayIsConcatenation(l.att, l.query(s), prefix, ctx);
    } else {
      assert prefix + ctx == ctx;
    }
  }

  // ---- one layer, for all requests ----

  /** Where a run puts the new tokens of a request: `added` of them, from `start` on in the batch. */
  datatype Entry = Entry(start: nat, added: nat)

  /** The slot mapping gives every request's new tokens its own last slots, and nothing else. */
  ghost predicate Planned(ats: seq<seq<nat>>, plan: seq<Entry>, mapping: seq<int>, slots: nat) {
    && |plan| == |ats|
    && (forall t :: 0 <= t < |mapping| ==> mapping[t] < slots)
    && forall a :: 0 <= a < |ats| ==> Fitting(ats[a], slots) && Appends(mapping, ats[a], plan[a].start, plan[a].added)
  }

  ghost predicate Fitting(at: seq<nat>, slots: nat) {
    forall j :: 0 <= j < |at| ==> at[j] < slots
  }

  /** The batch holds the last states of a request. */
  ghost predicate PlacedAt<S(!new)>(states: seq<S>, e: Entry, us: seq<S>) {
    e.added <= |us| && e.start + e.added <= |states| && states[e.start..e.start + e.added] == us[|us| - e.added..]
  }

  ghost predicate Placed<S(!new)>(states: seq<S>, plan: seq<Entry>, us: seq<seq<S>>) {
    |plan| == |us| && forall a :: 0 <= a < |us| ==> PlacedAt(states, plan[a], us[a])
  }

  /** The cache holds the keys and values of the first n states of a request. */
  ghost predicate HeldAt<S(!new)>(l: Layer<S>, us: seq<S>, at: seq<nat>, n: nat, keys: seq<Heads>, values: seq<Heads>)
    requires Shaped(l)
  {
    && |us| == |at| && n <= |at| && |keys| == |values| && Fitting(at, |keys|)
    && Gather(keys, values, at[..n]) == KVs(l, us[..n])
  }

  /** Of every request, the cache holds all but the last `added` states. */
  ghost predicate Held<S(!new)>(l: Layer<S>, us: seq<seq<S>>, ats: seq<seq<nat>>, plan: seq<Entry>, keys: seq<Heads>, values: seq<Heads>)
    requires Shaped(l)
  {
    && |us| == |ats| == |plan|
    && forall a :: 0 <= a < |us| ==> plan[a].added <= |us[a]| && HeldAt(l, us[a], ats[a], |us[a]| - plan[a].added, keys, values)
  }

  /** Nothing is pending. */
  ghost function Nothing(n: nat): (plan: seq<Entry>)
    ensures |plan| == n && forall a :: 0 <= a < n ==> plan[a].added == 0
  {
    seq(n, _ => Entry(0, 0))
  }

  lemma GatherAfter<S(!new)>(l: Layer<S>, keys: seq<Heads>, values: seq<Heads>, mapping: seq<int>, states: seq<S>,
                             at: seq<nat>, e: Entry)
    requires Shaped(l) && |keys| == |values| && |mapping| == |states| && Fitting(at, |keys|)
    requires forall t :: 0 <= t < |mapping| ==> mapping[t] < |keys|
    requires Appends(mapping, at, e.start, e.added)
    ensures Gather(Scatter(keys, mapping, KeysOf(l, states)), Scatter(values, mapping, ValuesOf(l, states)), at)
         == Gather(keys, values, at[..|at| - e.added]) + KVs(l, states[e.start..e.start + e.added])
  {
    ScatterExtends(keys, values, mapping, KeysOf(l, states), ValuesOf(l, states), at, e.start, e.added);
    PairIsKVs(l, states, e.start, e.start + e.added);
  }

  lemma HeldAfter<S(!new)>(l: Layer<S>, us: seq<S>, at: seq<nat>, e: Entry, states: seq<S>,
                           keys: seq<Heads>, values: seq<Heads>, keys': seq<Heads>, values': seq<Heads>)
    requires Shaped(l) && PlacedAt(states, e, us) && |keys'| == |values'| == |keys|
    requires HeldAt(l, us, at, |us| - e.added, keys, values)
    requires Gather(keys', values', at)
          == Gather(keys, values, at[..|at| - e.added]) + KVs(l, states[e.start..e.start + e.added])
    ensures HeldAt(l, us, at, |us|, keys', values')
  {
    var n := |us| - e.added;
    assert us == us[..n] + us[n..] && at[..|at|] == at && us[..|us|] == us;
    KVsConcat(l, us[..n], us[n..]);
  }

  lemma KVsConcat<S(!new)>(l: Layer<S>, a: seq<S>, b: seq<S>)
    requires Shaped(l)
    ensures KVs(l, a + b) == KVs(l, a) + KVs(l, b)
  {
  }

  /** Writing a run's keys and values completes what the cache holds of every request. */
  lemma LayerHolds<S(!new)>(l: Layer<S>, us: seq<seq<S>>, ats: seq<seq<nat>>, plan: seq<Entry>, states: seq<S>,
                            mapping: seq<int>, keys: seq<Heads>, values: seq<Heads>)
    requires Shaped(l) && |keys| == |values| && |mapping| == |states|
    requires Planned(ats, plan, mapping, |keys|) && Placed(states, plan, us) && Held(l, us, ats, plan, keys, values)
    ensures Held(l, us, ats, Nothing(|us|), Scatter(keys, mapping, KeysOf(l, states)), Scatter(values, mapping, ValuesOf(l, states)))
  {
    var keys', values' := Scatter(keys, mapping, KeysOf(l, states)), Scatter(values, mapping, ValuesOf(l, states));
    forall a | 0 <= a < |us|
      ensures HeldAt(l, us[a], ats[a], |us[a]|, keys', values')
    {
      LayerHoldsOne(l, us[a], ats[a], plan[a], states, mapping, keys, values);
    }
  }

  lemma LayerHoldsOne<S(!new)>(l: Layer<S>, us: seq<S>, at: seq<nat>, e: Entry, states: seq<S>,
                               mapping: seq<int>, keys: seq<Heads>, values: seq<Heads>)
    requires Shaped(l) && |keys| == |values| && |mapping| == |states| && Fitting(at, |keys|)
    requires forall t :: 0 <= t < |mapping| ==> mapping[t] < |keys|
    requires Appends(mapping, at, e.start, e.added) && PlacedAt(states, e, us)
    requires HeldAt(l, us, at, |us| - e.added, keys, values)
    ensures HeldAt(l, us, at, |us|, Scatter(keys, mapping, KeysOf(l, states)), Scatter(values, mapping, ValuesOf(l, states)))
  {
    GatherAfter(l, keys, values, mapping, states, at, e);
    HeldAfter(l, us, at, e, states, keys, values,
              Scatter(keys, mapping, KeysOf(l, states)), Scatter(values, mapping, ValuesOf(l, states)));
  }

  /** The output for new token k of a request: attention to the prefix and to its tokens up to it. */
  ghost predicate IsNext<S(!new)>(l: Layer<S>, ps: seq<S>, us: seq<S>, e: Entry, next: seq<S>, k: nat)
    requires Shaped(l) && k < e.added <= |us| && e.start + e.added <= |next|
  {
    var n := |us| - e.added + k;
    next[e.start + k] == StepOut(l, us[n], KVs(l, ps) + KVs(l, us[..n + 1]))
  }

  /** One causal layer over prefix and user states, the user part. */
  function UserNext<S(!new)>(l: Layer<S>, ps: seq<S>, us: seq<S>): (r: seq<S>)
    requires Shaped(l)
    ensures |r| == |us|
  {
    CausalLayer(l, ps + us)[|ps|..]
  }

  ghost function AllNext<S(!new)>(l: Layer<S>, ps: seq<S>, us: seq<seq<S>>): (r: seq<seq<S>>)
    requires Shaped(l)
    ensures |r| == |us| && forall a :: 0 <= a < |us| ==> r[a] == UserNext(l, ps, us[a])
  {
    seq(|us|, a requires 0 <= a < |us| => UserNext(l, ps, us[a]))
  }

  lemma UserNextAt<S(!new)>(l: Layer<S>, ps: seq<S>, us: seq<S>, j: nat)
    requires Shaped(l) && j < |us|
    ensures UserNext(l, ps, us)[j] == StepOut(l, us[j], KVs(l, ps) + KVs(l, us[..j + 1]))
  {
    assert (ps + us)[..|ps| + j + 1] == ps + us[..j + 1];
    KVsConcat(l, ps, us[..j + 1]);
  }

  lemma PlacedNext<S(!new)>(l: Layer<S>, ps: seq<S>, us: seq<S>, e: Entry, next: seq<S>)
    requires Shaped(l) && e.added <= |us| && e.start + e.added <= |next|
    requires forall k: nat :: k < e.added ==> IsNext(l, ps, us, e, next, k)
    ensures PlacedAt(next, e, UserNext(l, ps, us))
  {
    var us', n := UserNext(l, ps, us), |us| - e.added;
    forall k: nat | k < e.added
      ensures next[e.start..e.start + e.added][k] == us'[n..][k]
    {
      assert IsNext(l, ps, us, e, next, k);
      UserNextAt(l, ps, us, n + k);
    }
  }

  /** A request's new tokens are all its tokens, at the start of a row. */
  predicate IsRow(e: Entry, seqLen: nat, len: nat)
    requires seqLen > 0
  {
    e.added == 0 || (e.added == len <= seqLen && e.start % seqLen == 0)
  }

  lemma PromptNext<S(!new)>(l: Layer<S>, ps: seq<S>, us: seq<S>, e: Entry, seqLen: nat, states: seq<S>, next: seq<S>)
    requires Shaped(l) && seqLen > 0 && PlacedAt(states, e, us) && IsRow(e, seqLen, |us|)
    requires AreRowOutputs(l, KVs(l, ps), seqLen, states, next)
    ensures PlacedAt(next, e, UserNext(l, ps, us))
  {
    forall k: nat | k < e.added
      ensures IsNext(l, ps, us, e, next, k)
    {
      InRow(e.start, k, seqLen);
      assert IsRowOutput(l, KVs(l, ps), seqLen, states, next, e.start + k);
      var row := states[e.start..e.start + e.added];
      assert states[e.start..e.start + k + 1] == row[..k + 1] && states[e.start + k] == row[k];
      assert us[0..] == us;
    }
    PlacedNext(l, ps, us, e, next);
  }

  lemma InRow(start: nat, k: nat, seqLen: nat)
    requires k < seqLen && start % seqLen == 0
    ensures start + k - (start + k) % seqLen == start
  {
    RowStart(start / seqLen, k, seqLen);
  }

  /** A request's new token is its last, and the run is told where all its tokens are. */
  ghost predicate IsStep(e: Entry, at: seq<nat>, tables: seq<seq<nat>>, lens: seq<nat>, blockSize: nat, slots: nat)
    requires |tables| == |lens|
  {
    || e.added == 0
    || (&& e.added == 1 && e.start < |tables| && TableCovers(tables[e.start], blockSize, lens[e.start], slots)
        && Positions(tables[e.start], blockSize, lens[e.start]) == at)
  }

  lemma DecodeNext<S(!new)>(l: Layer<S>, ps: seq<S>, us: seq<S>, at: seq<nat>, e: Entry, states: seq<S>, next: seq<S>,
                            keys: seq<Heads>, values: seq<Heads>)
    requires Shaped(l) && |next| == |states| && PlacedAt(states, e, us) && e.added <= 1
    requires HeldAt(l, us, at, |us|, keys, values)
    requires e.added == 1 ==> next[e.start] == StepOut(l, states[e.start], KVs(l, ps) + Gather(keys, values, at))
    ensures PlacedAt(next, e, UserNext(l, ps, us))
  {
    if e.added == 1 {
      assert at[..|at|] == at && us[..|us|] == us;
      assert states[e.start] == states[e.start..e.start + 1][0] == us[|us| - 1];
      assert IsNext(l, ps, us, e, next, 0);
    }
    PlacedNext(l, ps, us, e, next);
  }

  // ---- dropping a request ----

  /** All but entry a. */
  function Cut<T>(xs: seq<T>, a: nat): (r: seq<T>)
    requires a < |xs|
    ensures |r| == |xs| - 1
    ensures forall c :: 0 <= c < |r| ==> r[c] == if c < a then xs[c] else xs[c + 1]
  {
    xs[..a] + xs[a + 1..]
  }

  lemma HeldCut<S(!new)>(l: Layer<S>, us: seq<seq<S>>, ats: seq<seq<nat>>, a: nat, keys: seq<Heads>, values: seq<Heads>)
    requires Shaped(l) && Held(l, us, ats, Nothing(|us|), keys, values) && a < |us|
    ensures Held(l, Cut(us, a), Cut(ats, a), Nothing(|us| - 1), keys, values)
  {
    forall c | 0 <= c < |us| - 1
      ensures HeldAt(l, Cut(us, a)[c], Cut(ats, a)[c], |Cut(us, a)[c]|, keys, values)
    {
      var k := if c < a then c else c + 1;
      assert HeldAt(l, us[k], ats[k], |us[k]| - Nothing(|us|)[k].added, keys, values);
    }
  }
}
