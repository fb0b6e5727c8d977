/** The whole model on paged caches: a stack of layers, each with its own caches, and a server that
    fills the prefix once and then serves any number of requests by prompt and decoding runs. */
module PagedModel {
  import opened Arithmetic
  import opened RelayModel
  import opened PagedAttention
  import opened PagedLayer

  // ---- all layers ----

  /** The states of prefix and users, depth by depth. */
  ghost predicate Chain<S(!new)>(layers: seq<Layer<S>>, dp: seq<seq<S>>, du: seq<seq<seq<S>>>) {
    && AllShaped(layers) && |dp| == |du| == |layers| + 1
    && forall i :: 0 <= i < |layers| ==> IsLink(layers[i], dp[i], dp[i + 1], du[i], du[i + 1])
  }

  ghost predicate IsLink<S(!new)>(l: Layer<S>, ps: seq<S>, ps': seq<S>, us: seq<seq<S>>, us': seq<seq<S>>)
    requires Shaped(l)
  {
    ps' == CausalLayer(l, ps) && us' == AllNext(l, ps, us)
  }

  /** The user states at a depth, for every request. */
  ghost function UsersAt<S(!new)>(layers: seq<Layer<S>>, i: nat, p: seq<S>, toks: seq<seq<S>>): (us: seq<seq<S>>)
    requires AllShaped(layers) && i <= |layers|
    ensures |us| == |toks| && forall a :: 0 <= a < |toks| ==> us[a] == UserAt(layers, i, p, toks[a])
  {
    seq(|toks|, a requires 0 <= a < |toks| => UserAt(layers, i, p, toks[a]))
  }

  ghost function UserAt<S(!new)>(layers: seq<Layer<S>>, i: nat, p: seq<S>, tokens: seq<S>): (us: seq<S>)
    requires AllShaped(layers) && i <= |layers|
    ensures |us| == |tokens|
  {
    AtDepth(layers, i, p + tokens)[|p|..]
  }

  /** The final states of a request's tokens, in a causal run over prefix and tokens. */
  ghost function Final<S(!new)>(layers: seq<Layer<S>>, p: seq<S>, tokens: seq<S>): (us: seq<S>)
    requires AllShaped(layers)
    ensures |us| == |tokens|
  {
    CausalRun(layers, p + tokens)[|p|..]
  }

  ghost function Finals<S(!new)>(layers: seq<Layer<S>>, p: seq<S>, toks: seq<seq<S>>): (us: seq<seq<S>>)
    requires AllShaped(layers)
    ensures |us| == |toks| && forall a :: 0 <= a < |toks| ==> us[a] == Final(layers, p, toks[a])
  {
    seq(|toks|, a requires 0 <= a < |toks| => Final(layers, p, toks[a]))
  }

  lemma FinalsAtFullDepth<S(!new)>(layers: seq<Layer<S>>, p: seq<S>, toks: seq<seq<S>>)
    requires AllShaped(layers)
    ensures UsersAt(layers, |layers|, p, toks) == Finals(layers, p, toks)
  {
    forall a | 0 <= a < |toks|
      ensures UserAt(layers, |layers|, p, toks[a]) == Final(layers, p, toks[a])
    {
      FullDepthIsRun(layers, p + toks[a]);
    }
  }

  lemma FinalPrefix<S(!new)>(layers: seq<Layer<S>>, p: seq<S>, tokens: seq<S>, more: seq<S>)
    requires AllShaped(layers)
    ensures Final(layers, p, tokens + more)[..|tokens|] == Final(layers, p, tokens)
  {
    assert p + (tokens + more) == p + tokens + more;
    CausalRunPrefix(layers, p + tokens, more);
  }

  lemma UserStep<S(!new)>(layers: seq<Layer<S>>, i: nat, p: seq<S>, tokens: seq<S>)
    requires AllShaped(layers) && i < |layers|
    ensures UserAt(layers, i + 1, p, tokens) == UserNext(layers[i], AtDepth(layers, i, p), UserAt(layers, i, p, tokens))
  {
    var all := AtDepth(layers, i, p + tokens);
    DepthPrefix(layers, i, p, tokens);
    assert all == all[..|p|] + all[|p|..];
  }

  /** Later tokens do not change the states of earlier ones. */
  lemma UserPrefix<S(!new)>(layers: seq<Layer<S>>, i: nat, p: seq<S>, tokens: seq<S>, n: nat)
    requires AllShaped(layers) && i <= |layers| && n <= |tokens|
    ensures UserAt(layers, i, p, tokens)[..n] == UserAt(layers, i, p, tokens[..n])
  {
    assert p + tokens == p + tokens[..n] + tokens[n..];
    DepthPrefix(layers, i, p + tokens[..n], tokens[n..]);
  }

  lemma UsersCut<S(!new)>(layers: seq<Layer<S>>, i: nat, p: seq<S>, toks: seq<seq<S>>, a: nat)
    requires AllShaped(layers) && i <= |layers| && a < |toks|
    ensures UsersAt(layers, i, p, Cut(toks, a)) == Cut(UsersAt(layers, i, p, toks), a)
  {
  }

  lemma UsersStep<S(!new)>(layers: seq<Layer<S>>, i: nat, p: seq<S>, toks: seq<seq<S>>)
    requires AllShaped(layers) && i < |layers|
    ensures UsersAt(layers, i + 1, p, toks) == AllNext(layers[i], AtDepth(layers, i, p), UsersAt(layers, i, p, toks))
  {
    forall a | 0 <= a < |toks|
      ensures UserAt(layers, i + 1, p, toks[a]) == UserNext(layers[i], AtDepth(layers, i, p), UserAt(layers, i, p, toks[a]))
    {
      UserStep(layers, i, p, toks[a]);
    }
  }

  lemma Depths<S(!new)>(layers: seq<Layer<S>>, p: seq<S>, toks: seq<seq<S>>) returns (dp: seq<seq<S>>, du: seq<seq<seq<S>>>)
    requires AllShaped(layers)
    ensures Chain(layers, dp, du)
    ensures forall i :: 0 <= i <= |layers| ==> dp[i] == AtDepth(layers, i, p) && du[i] == UsersAt(layers, i, p, toks)
  {
    dp := seq(|layers| + 1, i requires 0 <= i <= |layers| => AtDepth(layers, i, p));
    du := seq(|layers| + 1, i requires 0 <= i <= |layers| => UsersAt(layers, i, p, toks));
    forall i | 0 <= i < |layers|
      ensures IsLink(layers[i], dp[i], dp[i + 1], du[i], du[i + 1])
    {
      DepthStep(layers, i, p, toks);
    }
  }

  lemma DepthStep<S(!new)>(layers: seq<Layer<S>>, i: nat, p: seq<S>, toks: seq<seq<S>>)
    requires AllShaped(layers) && i < |layers|
    ensures IsLink(layers[i], AtDepth(layers, i, p), AtDepth(layers, i + 1, p),
                   UsersAt(layers, i, p, toks), UsersAt(layers, i + 1, p, toks))
  {
    UsersStep(layers, i, p, toks);
  }

  /** A stack of layers, each with its caches. */
  class Stack<S(!new)> {
    const layers: seq<Layer<S>>
    const units: seq<DecoderLayer<S>>
    const blockSize: nat
    const slots: nat
    const capacity: nat

    constructor (layers: seq<Layer<S>>, blockSize: nat, slots: nat, capacity: nat)
      requires AllShaped(layers) && blockSize > 0
      ensures Wired() && fresh(Footprint())
      ensures this.layers == layers && this.blockSize == blockSize && this.slots == slots && this.capacity == capacity
      ensures Healthy()
    {
      var all: seq<DecoderLayer<S>> := [];
      for i := 0 to |layers|
        invariant |all| == i
        invariant forall k :: 0 <= k < i ==>
          && all[k].l == layers[k] && all[k].keyCache.Length == slots && all[k].prefixKeys.Length == capacity
          && all[k].Valid() && fresh(all[k].Arrays())
        invariant forall k, m :: 0 <= k < i && 0 <= m < i && k != m ==> all[k].Arrays() !! all[m].Arrays()
      {
        var unit := new DecoderLayer(layers[i], slots, capacity);
        all := all + [unit];
      }
      this.layers, this.units := layers, all;
      this.blockSize, this.slots, this.capacity := blockSize, slots, capacity;
    }

    ghost function Footprint(): set<array<Heads>> {
      set i: nat, a | i < |units| && a in units[i].Arrays() :: a
    }

    /** The layers have caches of their own, of the agreed sizes. */
    ghost predicate Wired() {
      && AllShaped(layers) && |units| == |layers| && blockSize > 0
      && (forall i :: 0 <= i < |units| ==>
            units[i].l == layers[i] && units[i].keyCache.Length == slots && units[i].prefixKeys.Length == capacity)
      && forall i, k :: 0 <= i < |units| && 0 <= k < |units| && i != k ==> units[i].Arrays() !! units[k].Arrays()
    }

    /** The layers from i on are still to run; those before have run. */
    ghost predicate RanUpTo(i: nat, dp: seq<seq<S>>, du: seq<seq<seq<S>>>, ats: seq<seq<nat>>, plan: seq<Entry>)
      requires Wired() && |dp| == |du| == |layers| + 1
      reads Footprint()
    {
      && (forall k :: 0 <= k < |layers| && k < i ==> units[k].Serving(dp[k], du[k], ats, Nothing(|ats|)))
      && forall k :: i <= k < |layers| ==> units[k].Serving(dp[k], du[k], ats, plan)
    }

    lemma UnitArrays(i: nat)
      requires i < |units|
      ensures units[i].Arrays() <= Footprint()
    {
    }

    /** Layer i of a prompt run. */
    method PromptAt(i: nat, batchSize: nat, seqLen: nat, states: seq<S>, mapping: seq<int>, prefixLength: nat,
                    ghost dp: seq<seq<S>>, ghost du: seq<seq<seq<S>>>, ghost ats: seq<seq<nat>>, ghost plan: seq<Entry>)
      returns (next: seq<S>)
      requires Wired() && Chain(layers, dp, du) && i < |layers| && RanUpTo(i, dp, du, ats, plan)
      requires Planned(ats, plan, mapping, slots) && Placed(states, plan, du[i]) && prefixLength == |dp[i]|
      requires seqLen > 0 && |states| == |mapping| == batchSize * seqLen
      requires forall a :: 0 <= a < |ats| ==> IsRow(plan[a], seqLen, |ats[a]|)
      modifies Footprint()
      ensures RanUpTo(i + 1, dp, du, ats, plan)
      ensures |next| == |states| && Placed(next, plan, du[i + 1])
    {
      UnitArrays(i);
      assert units[i].Serving(dp[i], du[i], ats, plan);
      next := units[i].ServePrompt(batchSize, seqLen, states, mapping, prefixLength, dp[i], du[i], ats, plan);
      forall k | 0 <= k < |layers| && k != i
        ensures units[k].Serving(dp[k], du[k], ats, if k < i then Nothing(|ats|) else plan)
      {
        assert old(units[k].Serving(dp[k], du[k], ats, if k < i then Nothing(|ats|) else plan));
        assert units[k].Arrays() !! units[i].Arrays();
      }
    }

    /** A prompt run through all layers. */
    method RunPrompt(batchSize: nat, seqLen: nat, states: seq<S>, mapping: seq<int>, prefixLength: nat,
                     ghost dp: seq<seq<S>>, ghost du: seq<seq<seq<S>>>, ghost ats: seq<seq<nat>>, ghost plan: seq<Entry>)
      returns (final: seq<S>)
      requires Wired() && Chain(layers, dp, du) && RanUpTo(0, dp, du, ats, plan)
      requires Planned(ats, plan, mapping, slots) && Placed(states, plan, du[0]) && prefixLength == |dp[0]|
      requires seqLen > 0 && |states| == |mapping| == batchSize * seqLen
      requires forall a :: 0 <= a < |ats| ==> IsRow(plan[a], seqLen, |ats[a]|)
      modifies Footprint()
      ensures RanUpTo(|layers|, dp, du, ats, plan)
      ensures |final| == |states| && Placed(final, plan, du[|layers|])
    {
      final := states;
      for i := 0 to |layers|
        invariant RanUpTo(i, dp, du, ats, plan) && |dp[i]| == prefixLength
        invariant |final| == |states| && Placed(final, plan, du[i])
      {
        final := PromptAt(i, batchSize, seqLen, final, mapping, prefixLength, dp, du, ats, plan);
      }
    }

    /** Layer i of a decoding run. */
    method DecodeAt(i: nat, states: seq<S>, mapping: seq<int>, tables: seq<seq<nat>>, lens: seq<nat>, prefixLength: nat,
                    ghost dp: seq<seq<S>>, ghost du: seq<seq<seq<S>>>, ghost ats: seq<seq<nat>>, ghost plan: seq<Entry>)
      returns (next: seq<S>)
      requires Wired() && Chain(layers, dp, du) && i < |layers| && RanUpTo(i, dp, du, ats, plan)
      requires Planned(ats, plan, mapping, slots) && Placed(states, plan, du[i]) && prefixLength == |dp[i]|
      requires |states| == |mapping| == |tables| == |lens|
      requires forall b :: 0 <= b < |tables| ==> lens[b] > 0 && TableCovers(tables[b], blockSize, lens[b], slots)
      requires forall a :: 0 <= a < |ats| ==> IsStep(plan[a], ats[a], tables, lens, blockSize, slots)
      modifies Footprint()
      ensures RanUpTo(i + 1, dp, du, ats, plan)
      ensures |next| == |states| && Placed(next, plan, du[i + 1])
    {
      UnitArrays(i);
      assert units[i].Serving(dp[i], du[i], ats, plan);
      next := units[i].ServeDecode(states, mapping, tables, lens, blockSize, prefixLength, dp[i], du[i], ats, plan);
      forall k | 0 <= k < |layers| && k != i
        ensures units[k].Serving(dp[k], du[k], ats, if k < i then Nothing(|ats|) else plan)
      {
        assert old(units[k].Serving(dp[k], du[k], ats, if k < i then Nothing(|ats|) else plan));
        assert units[k].Arrays() !! units[i].Arrays();
      }
    }

    /** A decoding run through all layers. */
    method RunDecode(states: seq<S>, mapping: seq<int>, tables: seq<seq<nat>>, lens: seq<nat>, prefixLength: nat,
                     ghost dp: seq<seq<S>>, ghost du: seq<seq<seq<S>>>, ghost ats: seq<seq<nat>>, ghost plan: seq<Entry>)
      returns (final: seq<S>)
      requires Wired() && Chain(layers, dp, du) && RanUpTo(0, dp, du, ats, plan)
      requires Planned(ats, plan, mapping, slots) && Placed(states, plan, du[0]) && prefixLength == |dp[0]|
      requires |states| == |mapping| == |tables| == |lens|
      requires forall b :: 0 <= b < |tables| ==> lens[b] > 0 && TableCovers(tables[b], blockSize, lens[b], slots)
      requires forall a :: 0 <= a < |ats| ==> IsStep(plan[a], ats[a], tables, lens, blockSize, slots)
      modifies Footprint()
      ensures RanUpTo(|layers|, dp, du, ats, plan)
      ensures |final| == |states| && Placed(final, plan, du[|layers|])
    {
      final := states;
      for i := 0 to |layers|
        invariant RanUpTo(i, dp, du, ats, plan) && |dp[i]| == prefixLength
        invariant |final| == |states| && Placed(final, plan, du[i])
      {
        final := DecodeAt(i, final, mapping, tables, lens, prefixLength, dp, du, ats, plan);
      }
    }

    /** Every layer holds the prefix and, of every request, all but the tokens still to come. */
    ghost predicate Serves(p: seq<S>, toks: seq<seq<S>>, ats: seq<seq<nat>>, plan: seq<Entry>)
      requires Wired()
      reads Footprint()
    {
      forall i :: 0 <= i < |layers| ==> units[i].Serving(AtDepth(layers, i, p), UsersAt(layers, i, p, toks), ats, plan)
    }

    /** The caches of every layer are well formed. */
    ghost predicate Healthy()
      requires Wired()
      reads Footprint()
    {
      forall k :: 0 <= k < |layers| ==> units[k].Valid()
    }

    lemma ServingIsHealthy(p: seq<S>, toks: seq<seq<S>>, ats: seq<seq<nat>>, plan: seq<Entry>)
      requires Wired() && Serves(p, toks, ats, plan)
      ensures Healthy()
    {
    }

    /** Valid caches serve no prefix and no requests. */
    lemma Empty()
      requires Wired() && Healthy()
      ensures Serves([], [], [], [])
    {
      forall i | 0 <= i < |layers|
        ensures units[i].Serving(AtDepth(layers, i, []), UsersAt(layers, i, [], []), [], [])
      {
        assert AtDepth(layers, i, []) == [] && UsersAt(layers, i, [], []) == [];
      }
    }

    lemma HoldsPrefix(i: nat, p: seq<S>, toks: seq<seq<S>>, ats: seq<seq<nat>>)
      requires Wired() && Serves(p, toks, ats, Nothing(|toks|)) && i < |layers| && |p| <= capacity
      ensures units[i].Valid() && units[i].Prefix(|p|) == Caches(layers, p)[i]
    {
      assert units[i].Serving(AtDepth(layers, i, p), UsersAt(layers, i, p, toks), ats, Nothing(|toks|));
      CacheAtDepth(layers, i, p);
    }

    lemma HoldsRequest(i: nat, p: seq<S>, toks: seq<seq<S>>, ats: seq<seq<nat>>, a: nat)
      requires Wired() && Serves(p, toks, ats, Nothing(|toks|)) && i < |layers| && a < |toks|
      ensures units[i].Valid() && |ats| == |toks| && Fitting(ats[a], slots)
      ensures Gather(units[i].keyCache[..], units[i].valueCache[..], ats[a]) == Drop(Caches(layers, p + toks[a]), |p|)[i]
    {
      var u := units[i];
      u.HeldFor(AtDepth(layers, i, p), UsersAt(layers, i, p, toks), ats, a);
      HeldIsCached(layers, i, p, toks[a], ats[a], u.keyCache[..], u.valueCache[..]);
    }

    /** Requests may be forgotten. */
    lemma Forget(p: seq<S>, toks: seq<seq<S>>, ats: seq<seq<nat>>, a: nat)
      requires Wired() && Serves(p, toks, ats, Nothing(|toks|)) && a < |toks| == |ats|
      ensures Serves(p, Cut(toks, a), Cut(ats, a), Nothing(|toks| - 1))
    {
      forall i | 0 <= i < |layers|
        ensures units[i].Serving(AtDepth(layers, i, p), UsersAt(layers, i, p, Cut(toks, a)), Cut(ats, a), Nothing(|toks| - 1))
      {
        UsersCut(layers, i, p, toks, a);
        units[i].ForgetOne(AtDepth(layers, i, p), UsersAt(layers, i, p, toks), ats, a);
      }
    }

    /** New tokens are announced: what the layers hold is all but those. */
    lemma Announce(p: seq<S>, toks: seq<seq<S>>, ats: seq<seq<nat>>, toks': seq<seq<S>>, ats': seq<seq<nat>>, plan: seq<Entry>)
      requires Wired() && Serves(p, toks, ats, Nothing(|toks|)) && Grown(toks, ats, toks', ats', plan, slots)
      ensures Serves(p, toks', ats', plan)
    {
      forall i | 0 <= i < |layers|
        ensures units[i].Serving(AtDepth(layers, i, p), UsersAt(layers, i, p, toks'), ats', plan)
      {
        var u := units[i];
        assert u.Serving(AtDepth(layers, i, p), UsersAt(layers, i, p, toks), ats, Nothing(|toks|));
        UsersGrow(layers, i, p, toks, ats, toks', ats', plan, slots);
        HeldGrows(layers[i], UsersAt(layers, i, p, toks), ats, UsersAt(layers, i, p, toks'), ats', plan,
                  u.keyCache[..], u.valueCache[..]);
      }
    }

    /** The layers before i hold the prefix. */
    ghost predicate FilledUpTo(i: nat, dp: seq<seq<S>>)
      requires Wired() && |dp| == |layers| + 1 && i <= |layers|
      reads Footprint()
    {
      Healthy() && forall k :: 0 <= k < i ==> units[k].Serving(dp[k], [], [], [])
    }

    /** Layer i of the run that fills the prefix caches. */
    method FillAt(i: nat, states: seq<S>, ghost dp: seq<seq<S>>) returns (next: seq<S>)
      requires Wired() && |dp| == |layers| + 1 && i < |layers| && FilledUpTo(i, dp)
      requires states == dp[i] && 0 < |states| <= capacity && dp[i + 1] == CausalLayer(layers[i], states)
      modifies Footprint()
      ensures FilledUpTo(i + 1, dp) && next == dp[i + 1]
    {
      UnitArrays(i);
      next := units[i].Fill(states);
      forall k | 0 <= k < |layers| && k != i
        ensures units[k].Valid() && (k < i ==> units[k].Serving(dp[k], [], [], []))
      {
        assert old(units[k].Valid() && (k < i ==> units[k].Serving(dp[k], [], [], [])));
        assert units[k].Arrays() !! units[i].Arrays();
      }
    }

    method FillAll(p: seq<S>, ghost dp: seq<seq<S>>, ghost du: seq<seq<seq<S>>>) returns (final: seq<S>)
      requires Wired() && Chain(layers, dp, du) && dp[0] == p && FilledUpTo(0, dp) && 0 < |p| <= capacity
      modifies Footprint()
      ensures FilledUpTo(|layers|, dp) && final == dp[|layers|]
    {
      final := p;
      for i := 0 to |layers|
        invariant FilledUpTo(i, dp) && final == dp[i] && |final| == |p|
      {
        assert IsLink(layers[i], dp[i], dp[i + 1], du[i], du[i + 1]);
        final := FillAt(i, final, dp);
      }
    }

    /** The run that fills the prefix caches. */
    method RunFill(p: seq<S>) returns (final: seq<S>)
      requires Wired() && Healthy() && 0 < |p| <= capacity
      modifies Footprint()
      ensures Serves(p, [], [], []) && final == CausalRun(layers, p)
    {
      ghost var dp, du := Depths(layers, p, []);
      final := FillAll(p, dp, du);
      FullDepthIsRun(layers, p);
      forall i | 0 <= i < |layers|
        ensures units[i].Serving(AtDepth(layers, i, p), UsersAt(layers, i, p, []), [], [])
      {
        assert units[i].Serving(dp[i], [], [], []);
        assert UsersAt(layers, i, p, []) == [];
      }
    }

    lemma Chained(p: seq<S>, toks: seq<seq<S>>, ats: seq<seq<nat>>, plan: seq<Entry>, dp: seq<seq<S>>, du: seq<seq<seq<S>>>)
      requires Wired() && Serves(p, toks, ats, plan) && |dp| == |du| == |layers| + 1
      requires forall i :: 0 <= i <= |layers| ==> dp[i] == AtDepth(layers, i, p) && du[i] == UsersAt(layers, i, p, toks)
      ensures RanUpTo(0, dp, du, ats, plan)
    {
    }

    /** A prompt run: it completes the announced tokens in every layer, and ends with their final states. */
    method ServePrompt(batchSize: nat, seqLen: nat, states: seq<S>, mapping: seq<int>, prefixLength: nat,
                       ghost p: seq<S>, ghost toks: seq<seq<S>>, ghost ats: seq<seq<nat>>,
                       ghost toks': seq<seq<S>>, ghost ats': seq<seq<nat>>, ghost plan: seq<Entry>)
      returns (final: seq<S>)
      requires Wired() && Serves(p, toks, ats, Nothing(|toks|)) && Grown(toks, ats, toks', ats', plan, slots)
      requires Planned(ats', plan, mapping, slots) && Placed(states, plan, toks') && prefixLength == |p|
      requires seqLen > 0 && |states| == |mapping| == batchSize * seqLen
      requires forall a :: 0 <= a < |ats'| ==> IsRow(plan[a], seqLen, |ats'[a]|)
      modifies Footprint()
      ensures Serves(p, toks', ats', Nothing(|toks'|))
      ensures |final| == |states| && Placed(final, plan, Finals(layers, p, toks'))
    {
      ghost var dp, du := Depths(layers, p, toks');
      Announce(p, toks, ats, toks', ats', plan);
      AtTheStart(layers, p, toks');
      FinalsAtFullDepth(layers, p, toks');
      Chained(p, toks', ats', plan, dp, du);
      final := RunPrompt(batchSize, seqLen, states, mapping, prefixLength, dp, du, ats', plan);
      assert forall i :: 0 <= i < |layers| ==> units[i].Serving(dp[i], du[i], ats', Nothing(|toks'|));
    }

    /** A decoding run: it completes the announced tokens in every layer, and ends with their final states. */
    method ServeDecode(states: seq<S>, mapping: seq<int>, tables: seq<seq<nat>>, lens: seq<nat>, prefixLength: nat,
                       ghost p: seq<S>, ghost toks: seq<seq<S>>, ghost ats: seq<seq<nat>>,
                       ghost toks': seq<seq<S>>, ghost ats': seq<seq<nat>>, ghost plan: seq<Entry>)
      returns (final: seq<S>)
      requires Wired() && Serves(p, toks, ats, Nothing(|toks|)) && Grown(toks, ats, toks', ats', plan, slots)
      requires Planned(ats', plan, mapping, slots) && Placed(states, plan, toks') && prefixLength == |p|
      requires |states| == |mapping| == |tables| == |lens|
      requires forall b :: 0 <= b < |tables| ==> lens[b] > 0 && TableCovers(tables[b], blockSize, lens[b], slots)
      requires forall a :: 0 <= a < |ats'| ==> IsStep(plan[a], ats'[a], tables, lens, blockSize, slots)
      modifies Footprint()
      ensures Serves(p, toks', ats', Nothing(|toks'|))
      ensures |final| == |states| && Placed(final, plan, Finals(layers, p, toks'))
    {
      ghost var dp, du := Depths(layers, p, toks');
      Announce(p, toks, ats, toks', ats', plan);
      AtTheStart(layers, p, toks');
      FinalsAtFullDepth(layers, p, toks');
      Chained(p, toks', ats', plan, dp, du);
      final := RunDecode(states, mapping, tables, lens, prefixLength, dp, du, ats', plan);
      assert forall i :: 0 <= i < |layers| ==> units[i].Serving(dp[i], du[i], ats', Nothing(|toks'|));
    }
  }

  lemma AtTheStart<S(!new)>(layers: seq<Layer<S>>, p: seq<S>, toks: seq<seq<S>>)
    requires AllShaped(layers)
    ensures UsersAt(layers, 0, p, toks) == toks
  {
    forall a | 0 <= a < |toks|
      ensures UserAt(layers, 0, p, toks[a]) == toks[a]
    {
      assert (p + toks[a])[|p|..] == toks[a];
    }
  }

  /** Requests go on with more tokens, or begin; `plan` says how many are new. */
  ghost predicate Grown<S(!new)>(toks: seq<seq<S>>, ats: seq<seq<nat>>, toks': seq<seq<S>>, ats': seq<seq<nat>>,
                                 plan: seq<Entry>, slots: nat)
  {
    && |toks| == |ats| <= |toks'| == |ats'| == |plan|
    && forall a :: 0 <= a < |toks'| ==>
         && plan[a].added <= |toks'[a]| == |ats'[a]| && Fitting(ats'[a], slots)
         && var n := |toks'[a]| - plan[a].added;
            if a < |toks| then toks'[a][..n] == toks[a] && ats'[a][..n] == ats[a] else n == 0
  }

  /** Tokens that grow have states that grow, at every depth. */
  lemma UsersGrow<S(!new)>(layers: seq<Layer<S>>, i: nat, p: seq<S>, toks: seq<seq<S>>, ats: seq<seq<nat>>,
                           toks': seq<seq<S>>, ats': seq<seq<nat>>, plan: seq<Entry>, slots: nat)
    requires AllShaped(layers) && i <= |layers| && Grown(toks, ats, toks', ats', plan, slots)
    ensures Grown(UsersAt(layers, i, p, toks), ats, UsersAt(layers, i, p, toks'), ats', plan, slots)
  {
    forall a | 0 <= a < |toks|
      ensures UserAt(layers, i, p, toks'[a])[..|toks[a]|] == UserAt(layers, i, p, toks[a])
    {
      UserPrefix(layers, i, p, toks'[a], |toks[a]|);
    }
  }

  lemma HeldGrows<S(!new)>(l: Layer<S>, us: seq<seq<S>>, ats: seq<seq<nat>>, us': seq<seq<S>>, ats': seq<seq<nat>>,
                           plan: seq<Entry>, keys: seq<Heads>, values: seq<Heads>)
    requires Shaped(l) && |keys| == |values|
    requires Held(l, us, ats, Nothing(|us|), keys, values) && Grown(us, ats, us', ats', plan, |keys|)
    ensures Held(l, us', ats', plan, keys, values)
  {
    forall a | 0 <= a < |us'|
      ensures HeldAt(l, us'[a], ats'[a], |us'[a]| - plan[a].added, keys, values)
    {
      if a < |us| {
        HeldMore(l, us[a], ats[a], us'[a], ats'[a], keys, values);
      } else {
        assert us'[a][..0] == [] && ats'[a][..0] == [];
      }
    }
  }

  lemma HeldMore<S(!new)>(l: Layer<S>, us: seq<S>, at: seq<nat>, us': seq<S>, at': seq<nat>, keys: seq<Heads>, values: seq<Heads>)
    requires Shaped(l) && HeldAt(l, us, at, |us|, keys, values) && |us'| == |at'| && Fitting(at', |keys|)
    requires |us| <= |us'| && us'[..|us|] == us && at'[..|us|] == at
    ensures HeldAt(l, us', at', |us|, keys, values)
  {
    assert us[..|us|] == us && at[..|us|] == at;
  }

  /** What a layer holds of a request is the user part of its cache in a causal run. */
  lemma HeldIsCached<S(!new)>(layers: seq<Layer<S>>, i: nat, p: seq<S>, tokens: seq<S>, at: seq<nat>, keys: seq<Heads>, values: seq<Heads>)
    requires AllShaped(layers) && i < |layers|
    requires HeldAt(layers[i], UserAt(layers, i, p, tokens), at, |tokens|, keys, values)
    ensures Gather(keys, values, at) == Drop(Caches(layers, p + tokens), |p|)[i]
  {
    var us := UserAt(layers, i, p, tokens);
    assert at[..|tokens|] == at && us[..|tokens|] == us;
    DroppedAtDepth(layers, i, p + tokens, |p|);
    TailKVs(layers[i], AtDepth(layers, i, p + tokens), |p|);
  }

  lemma TailKVs<S(!new)>(l: Layer<S>, all: seq<S>, n: nat)
    requires Shaped(l) && n <= |all|
    ensures KVs(l, all)[n..] == KVs(l, all[n..])
  {
  }
}
