/** Multi-head attention over key/value contexts, a stack of causal layers, and the relay form of
    the same stack: a shared prefix is run once and its keys and values are cached; user tokens
    then attend to the cache and to their own tokens and fuse the two results.

    The rest of a layer (projections, residuals, feed-forward, position embedding) acts token by
    token and is a parameter. */
module RelayModel {
  import opened Softmax

  /** The keys and values of one token, one vector per key/value head. */
  datatype KV = KV(k: seq<Vec>, v: seq<Vec>)

  /** The shape and arithmetic of one attention layer. */
  datatype Attention = Attention(
      numHeads: nat, numKvHeads: nat, headSize: nat, scale: real,
      exp: real -> real, log: real -> real)
  {
    ghost predicate Valid() {
      && 0 < numKvHeads
      && numHeads % numKvHeads == 0
      && IsExp(exp) && IsLog(exp, log)
    }

    predicate Fits(kv: KV) {
      && |kv.k| == |kv.v| == numKvHeads
      && forall g :: 0 <= g < numKvHeads ==> |kv.v[g]| == headSize
    }

    predicate AllFit(ctx: seq<KV>) {
      forall j :: 0 <= j < |ctx| ==> Fits(ctx[j])
    }

    /** The key/value head that query head `h` reads. */
    function KvHead(h: nat): (g: nat)
      requires Valid() && h < numHeads
      ensures g < numKvHeads
    {
      var group := numHeads / numKvHeads;
      assert numHeads == group * numKvHeads;
      assert group > 0;
      GroupOf(h, group, numKvHeads);
      h / group
    }

    function Scores(q: Vec, h: nat, ctx: seq<KV>): (s: seq<real>)
      requires Valid() && h < numHeads && AllFit(ctx)
      ensures |s| == |ctx|
    {
      seq(|ctx|, j requires 0 <= j < |ctx| => scale * Dot(q, ctx[j].k[KvHead(h)]))
    }

    function Values(h: nat, ctx: seq<KV>): (v: seq<Vec>)
      requires Valid() && h < numHeads && AllFit(ctx)
      ensures |v| == |ctx| && forall j :: 0 <= j < |v| ==> |v[j]| == headSize
    {
      seq(|ctx|, j requires 0 <= j < |ctx| => ctx[j].v[KvHead(h)])
    }

    /** Exact attention of query head `h` over a context. */
    function AttendHead(q: Vec, h: nat, ctx: seq<KV>): (out: Vec)
      requires Valid() && h < numHeads && AllFit(ctx)
      ensures |out| == headSize
    {
      Attend(exp, Scores(q, h, ctx), Values(h, ctx), headSize)
    }

    /** The log-sum-exp returned with it. */
    function Lse(q: Vec, h: nat, ctx: seq<KV>): real
      requires Valid() && h < numHeads && AllFit(ctx)
    {
      log(WeightSum(exp, Scores(q, h, ctx)))
    }

    function AttendAll(q: seq<Vec>, ctx: seq<KV>): (out: seq<Vec>)
      requires Valid() && |q| == numHeads && AllFit(ctx)
      ensures |out| == numHeads
    {
      seq(numHeads, h requires 0 <= h < numHeads => AttendHead(q[h], h, ctx))
    }

    /** Attention to the two contexts separately, joined by the fusion formula. */
    function RelayAll(q: seq<Vec>, sys: seq<KV>, usr: seq<KV>): (out: seq<Vec>)
      requires Valid() && |q| == numHeads && AllFit(sys) && AllFit(usr)
      ensures |out| == numHeads
    {
      seq(numHeads, h requires 0 <= h < numHeads =>
        Fuse(exp, AttendHead(q[h], h, sys), Lse(q[h], h, sys),
                  AttendHead(q[h], h, usr), Lse(q[h], h, usr)))
    }
  }

  lemma GroupOf(h: nat, group: nat, groups: nat)
    requires group > 0 && h < group * groups
    ensures h / group < groups
  {
    assert h / group * group <= h;
  }

  function Dot(a: Vec, b: Vec): real {
    if a == [] || b == [] then 0.0 else a[0] * b[0] + Dot(a[1..], b[1..])
  }

  lemma LseIsLog(a: Attention, q: Vec, h: nat, ctx: seq<KV>)
    requires a.Valid() && h < a.numHeads && a.AllFit(ctx) && ctx != []
    ensures Exp(a.exp, a.Lse(q, h, ctx)) == WeightSum(a.exp, a.Scores(q, h, ctx))
  {
    var w := WeightSum(a.exp, a.Scores(q, h, ctx));
    assert w > 0.0;
    assert a.exp(a.log(w)) == w;
  }

  lemma ContextConcat(a: Attention, q: Vec, h: nat, sys: seq<KV>, usr: seq<KV>)
    requires a.Valid() && h < a.numHeads && a.AllFit(sys) && a.AllFit(usr)
    ensures a.Scores(q, h, sys + usr) == a.Scores(q, h, sys) + a.Scores(q, h, usr)
    ensures a.Values(h, sys + usr) == a.Values(h, sys) + a.Values(h, usr)
  {
    var s, t, st := a.Scores(q, h, sys), a.Scores(q, h, usr), a.Scores(q, h, sys + usr);
    forall j | 0 <= j < |st|
      ensures st[j] == (s + t)[j]
    {
      assert (sys + usr)[j] == if j < |sys| then sys[j] else usr[j - |sys|];
    }
  }

  /** Relay attention over a cached prefix and the user context is plain attention over the
      prefix followed by the user context, for every head. */
  lemma RelayIsConcatenation(a: Attention, q: seq<Vec>, sys: seq<KV>, usr: seq<KV>)
    requires a.Valid() && |q| == a.numHeads && a.AllFit(sys) && a.AllFit(usr)
    requires sys != [] && usr != []
    ensures a.RelayAll(q, sys, usr) == a.AttendAll(q, sys + usr)
  {
    forall h | 0 <= h < a.numHeads
      ensures a.RelayAll(q, sys, usr)[h] == a.AttendAll(q, sys + usr)[h]
    {
      var s, t := a.Scores(q[h], h, sys), a.Scores(q[h], h, usr);
      var v, w := a.Values(h, sys), a.Values(h, usr);
      ContextConcat(a, q[h], h, sys, usr);
      LseIsLog(a, q[h], h, sys);
      LseIsLog(a, q[h], h, usr);
      FusionIsConcatenation(a.exp, s, v, a.Lse(q[h], h, sys), t, w, a.Lse(q[h], h, usr), a.headSize);
    }
  }

  /** One layer: attention plus per-token functions. */
  datatype Layer<!S> = Layer(
      att: Attention, query: S -> seq<Vec>, kv: S -> KV, finish: (S, seq<Vec>) -> S)

  ghost predicate Shaped<S(!new)>(l: Layer<S>) {
    && l.att.Valid()
    && forall s :: |l.query(s)| == l.att.numHeads && l.att.Fits(l.kv(s))
  }

  ghost predicate AllShaped<S(!new)>(layers: seq<Layer<S>>) {
    forall i :: 0 <= i < |layers| ==> Shaped(layers[i])
  }

  function KVs<S(!new)>(l: Layer<S>, states: seq<S>): (ctx: seq<KV>)
    requires Shaped(l)
    ensures |ctx| == |states| && l.att.AllFit(ctx)
  {
    seq(|states|, i requires 0 <= i < |states| => l.kv(states[i]))
  }

  /** One causal layer: token i attends to tokens 0..i. */
  function CausalLayer<S(!new)>(l: Layer<S>, states: seq<S>): (next: seq<S>)
    requires Shaped(l)
    ensures |next| == |states|
  {
    seq(|states|, i requires 0 <= i < |states| =>
      l.finish(states[i], l.att.AttendAll(l.query(states[i]), KVs(l, states[..i + 1]))))
  }

  /** The states after all layers. Taking a prefix of `layers` gives the states at that depth. */
  function CausalRun<S(!new)>(layers: seq<Layer<S>>, states: seq<S>): (final: seq<S>)
    requires AllShaped(layers)
    ensures |final| == |states|
  {
    if layers == [] then states else CausalRun(layers[1..], CausalLayer(layers[0], states))
  }

  /** The key/value cache of every layer after running `states`. */
  function Caches<S(!new)>(layers: seq<Layer<S>>, states: seq<S>): (caches: seq<seq<KV>>)
    requires AllShaped(layers)
    ensures |caches| == |layers|
    ensures forall i :: 0 <= i < |layers| ==> |caches[i]| == |states| && layers[i].att.AllFit(caches[i])
  {
    if layers == [] then []
    else [KVs(layers[0], states)] + Caches(layers[1..], CausalLayer(layers[0], states))
  }

  ghost predicate CachesFit<S(!new)>(layers: seq<Layer<S>>, caches: seq<seq<KV>>) {
    && |caches| == |layers|
    && forall i :: 0 <= i < |layers| ==> layers[i].att.AllFit(caches[i])
  }

  /** A relay layer on a prompt: token i attends to the cached prefix and to user tokens 0..i. */
  function RelayLayer<S(!new)>(l: Layer<S>, prefix: seq<KV>, states: seq<S>): (next: seq<S>)
    requires Shaped(l) && l.att.AllFit(prefix)
    ensures |next| == |states|
  {
    seq(|states|, i requires 0 <= i < |states| =>
      l.finish(states[i], l.att.RelayAll(l.query(states[i]), prefix, KVs(l, states[..i + 1]))))
  }

  function RelayRun<S(!new)>(layers: seq<Layer<S>>, prefix: seq<seq<KV>>, states: seq<S>): (final: seq<S>)
    requires AllShaped(layers) && CachesFit(layers, prefix)
    ensures |final| == |states|
  {
    if layers == [] then states
    else RelayRun(layers[1..], prefix[1..], RelayLayer(layers[0], prefix[0], states))
  }

  /** The user caches a relay run writes, layer by layer. */
  function RelayCaches<S(!new)>(layers: seq<Layer<S>>, prefix: seq<seq<KV>>, states: seq<S>): (caches: seq<seq<KV>>)
    requires AllShaped(layers) && CachesFit(layers, prefix)
    ensures CachesFit(layers, caches)
  {
    if layers == [] then []
    else [KVs(layers[0], states)] + RelayCaches(layers[1..], prefix[1..], RelayLayer(layers[0], prefix[0], states))
  }

  /** One decoding step through all layers: the token's key and value join the user cache, and the
      token attends to the cached prefix and to the user cache. */
  function Decode<S(!new)>(layers: seq<Layer<S>>, prefix: seq<seq<KV>>, user: seq<seq<KV>>, s: S): (r: (S, seq<seq<KV>>))
    requires AllShaped(layers) && CachesFit(layers, prefix) && CachesFit(layers, user)
    ensures CachesFit(layers, r.1)
  {
    if layers == [] then (s, [])
    else
      var ctx := user[0] + [layers[0].kv(s)];
      var next := layers[0].finish(s, layers[0].att.RelayAll(layers[0].query(s), prefix[0], ctx));
      var rest := Decode(layers[1..], prefix[1..], user[1..], next);
      (rest.0, [ctx] + rest.1)
  }

  /** A request: a prompt run, then any number of decoding steps. Returns the final states of the
      user tokens in order and the user caches. */
  function Serve<S(!new)>(layers: seq<Layer<S>>, prefix: seq<seq<KV>>, prompt: seq<S>, decoded: seq<S>): (r: (seq<S>, seq<seq<KV>>))
    requires AllShaped(layers) && CachesFit(layers, prefix)
    ensures CachesFit(layers, r.1)
  {
    if decoded == [] then (RelayRun(layers, prefix, prompt), RelayCaches(layers, prefix, prompt))
    else
      var n := |decoded| - 1;
      var before := Serve(layers, prefix, prompt, decoded[..n]);
      var step := Decode(layers, prefix, before.1, decoded[n]);
      (before.0 + [step.0], step.1)
  }

  function Drop(caches: seq<seq<KV>>, n: nat): (r: seq<seq<KV>>)
    requires forall i :: 0 <= i < |caches| ==> n <= |caches[i]|
    ensures |r| == |caches|
  {
    seq(|caches|, i requires 0 <= i < |caches| => caches[i][n..])
  }

  // ---- causality ----

  lemma CausalLayerPrefix<S(!new)>(l: Layer<S>, p: seq<S>, u: seq<S>)
    requires Shaped(l)
    ensures CausalLayer(l, p + u)[..|p|] == CausalLayer(l, p)
  {
    forall i | 0 <= i < |p|
      ensures CausalLayer(l, p + u)[i] == CausalLayer(l, p)[i]
    {
      assert (p + u)[..i + 1] == p[..i + 1];
    }
  }

  /** Causality: what follows a token never changes its state, at any depth. */
  lemma {:induction false} CausalRunPrefix<S(!new)>(layers: seq<Layer<S>>, p: seq<S>, u: seq<S>)
    requires AllShaped(layers)
    ensures CausalRun(layers, p + u)[..|p|] == CausalRun(layers, p)
  {
    if layers == [] {
      assert (p + u)[..|p|] == p;
    } else {
      var next := CausalLayer(layers[0], p + u);
      CausalLayerPrefix(layers[0], p, u);
      assert next == next[..|p|] + next[|p|..];
      CausalRunPrefix(layers[1..], next[..|p|], next[|p|..]);
    }
  }

  // ---- the states at a depth ----

  /** The states after the first i layers. */
  function AtDepth<S(!new)>(layers: seq<Layer<S>>, i: nat, states: seq<S>): (r: seq<S>)
    requires AllShaped(layers) && i <= |layers|
    ensures |r| == |states|
  {
    if i == 0 then states else CausalLayer(layers[i - 1], AtDepth(layers, i - 1, states))
  }

  lemma {:induction false} AtDepthShift<S(!new)>(layers: seq<Layer<S>>, i: nat, states: seq<S>)
    requires AllShaped(layers) && i < |layers|
    ensures AtDepth(layers, i + 1, states) == AtDepth(layers[1..], i, CausalLayer(layers[0], states))
  {
    if i > 0 {
      AtDepthShift(layers, i - 1, states);
    }
  }

  lemma {:induction false} FullDepthIsRun<S(!new)>(layers: seq<Layer<S>>, states: seq<S>)
    requires AllShaped(layers)
    ensures AtDepth(layers, |layers|, states) == CausalRun(layers, states)
  {
    if layers != [] {
      AtDepthShift(layers, |layers| - 1, states);
      FullDepthIsRun(layers[1..], CausalLayer(layers[0], states));
    }
  }

  /** A layer's cache holds the keys and values of the states at its depth. */
  lemma {:induction false} CacheAtDepth<S(!new)>(layers: seq<Layer<S>>, i: nat, states: seq<S>)
    requires AllShaped(layers) && i < |layers|
    ensures Caches(layers, states)[i] == KVs(layers[i], AtDepth(layers, i, states))
  {
    if i > 0 {
      AtDepthShift(layers, i - 1, states);
      CacheAtDepth(layers[1..], i - 1, CausalLayer(layers[0], states));
    }
  }

  lemma DroppedAtDepth<S(!new)>(layers: seq<Layer<S>>, i: nat, states: seq<S>, n: nat)
    requires AllShaped(layers) && i < |layers| && n <= |states|
    ensures Drop(Caches(layers, states), n)[i] == KVs(layers[i], AtDepth(layers, i, states))[n..]
  {
    CacheAtDepth(layers, i, states);
  }

  lemma {:induction false} DepthPrefix<S(!new)>(layers: seq<Layer<S>>, i: nat, p: seq<S>, u: seq<S>)
    requires AllShaped(layers) && i <= |layers|
    ensures AtDepth(layers, i, p + u)[..|p|] == AtDepth(layers, i, p)
  {
    if i == 0 {
      assert (p + u)[..|p|] == p;
    } else {
      DepthPrefix(layers, i - 1, p, u);
      LayerPrefix(layers[i - 1], AtDepth(layers, i - 1, p + u), |p|);
    }
  }

  lemma LayerPrefix<S(!new)>(l: Layer<S>, states: seq<S>, n: nat)
    requires Shaped(l) && n <= |states|
    ensures CausalLayer(l, states)[..n] == CausalLayer(l, states[..n])
  {
    assert states == states[..n] + states[n..];
    CausalLayerPrefix(l, states[..n], states[n..]);
  }

  // ---- the relay theorem ----

  /** One layer: if the cache holds the prefix's keys and values, relaying the user tokens gives
      exactly the user part of a causal layer over prefix and user tokens. */
  lemma RelayLayerIsCausal<S(!new)>(l: Layer<S>, p: seq<S>, u: seq<S>)
    requires Shaped(l) && p != []
    ensures RelayLayer(l, KVs(l, p), u) == CausalLayer(l, p + u)[|p|..]
  {
    var whole := CausalLayer(l, p + u);
    forall i | 0 <= i < |u|
      ensures RelayLayer(l, KVs(l, p), u)[i] == whole[|p| + i]
    {
      assert (p + u)[..|p| + i + 1] == p + u[..i + 1];
      assert KVs(l, p + u[..i + 1]) == KVs(l, p) + KVs(l, u[..i + 1]);
      RelayIsConcatenation(l.att, l.query(u[i]), KVs(l, p), KVs(l, u[..i + 1]));
    }
  }

  /** For every number of layers, every non-empty prefix and every user token sequence: filling the
      prefix cache once and relaying the user tokens gives each of them the state of one causal
      run over the prefix followed by the user tokens, and writes the same user caches. */
  lemma {:induction false} RelayRunIsCausal<S(!new)>(layers: seq<Layer<S>>, p: seq<S>, u: seq<S>)
    requires AllShaped(layers) && p != []
    ensures CachesFit(layers, Caches(layers, p))
    ensures RelayRun(layers, Caches(layers, p), u) == CausalRun(layers, p + u)[|p|..]
    ensures RelayCaches(layers, Caches(layers, p), u) == Drop(Caches(layers, p + u), |p|)
  {
    if layers == [] {
      assert (p + u)[|p|..] == u;
    } else {
      var l := layers[0];
      var p', u' := CausalLayer(l, p), RelayLayer(l, KVs(l, p), u);
      RelayStep(l, p, u);
      RelayRunIsCausal(layers[1..], p', u');
      DropCaches(layers, p, 0);
      DropCaches(layers, p + u, |p|);
      FirstAndRest(Drop(Caches(layers, p + u), |p|));
    }
  }

  lemma FirstAndRest<T>(s: seq<T>)
    requires s != []
    ensures s == [s[0]] + s[1..]
  {
  }

  lemma RelayStep<S(!new)>(l: Layer<S>, p: seq<S>, u: seq<S>)
    requires Shaped(l) && p != []
    ensures CausalLayer(l, p + u) == CausalLayer(l, p) + RelayLayer(l, KVs(l, p), u)
    ensures KVs(l, p + u)[|p|..] == KVs(l, u)
  {
    var whole := CausalLayer(l, p + u);
    CausalLayerPrefix(l, p, u);
    RelayLayerIsCausal(l, p, u);
    assert whole == whole[..|p|] + whole[|p|..];
  }

  // ---- decoding ----

  /** One decoding step after any causal history `p + u` gives the next token the state, and the
      user caches the contents, of the causal run extended by that token. */
  lemma {:induction false} DecodeIsCausal<S(!new)>(layers: seq<Layer<S>>, p: seq<S>, u: seq<S>, s: S)
    requires AllShaped(layers) && p != []
    ensures CachesFit(layers, Drop(Caches(layers, p + u), |p|))
    ensures Decode(layers, Caches(layers, p), Drop(Caches(layers, p + u), |p|), s)
         == (CausalRun(layers, p + u + [s])[|p| + |u|], Drop(Caches(layers, p + u + [s]), |p|))
  {
    if layers == [] {
    } else {
      var l := layers[0];
      var p', u', s' := SplitLayer(l, p, u, s);
      DecodeIsCausal(layers[1..], p', u', s');
      DecodeOneLayer(l, p, u, s);
      DropCaches(layers, p, 0);
      DropCaches(layers, p + u, |p|);
      var prefix, user := Caches(layers, p), Drop(Caches(layers, p + u), |p|);
      var ctx := user[0] + [l.kv(s)];
      assert l.finish(s, l.att.RelayAll(l.query(s), prefix[0], ctx)) == s';
      assert Decode(layers, prefix, user, s).1
          == [ctx] + Decode(layers[1..], prefix[1..], user[1..], s').1;
      assert Decode(layers, prefix, user, s).0
          == Decode(layers[1..], prefix[1..], user[1..], s').0;
      DropCaches(layers, p + u + [s], |p|);
      var after := Drop(Caches(layers, p + u + [s]), |p|);
      assert after == [after[0]] + after[1..];
    }
  }

  /** The images of the three parts of a run under one causal layer. */
  lemma SplitLayer<S(!new)>(l: Layer<S>, p: seq<S>, u: seq<S>, s: S) returns (p': seq<S>, u': seq<S>, s': S)
    requires Shaped(l)
    ensures |p'| == |p| && |u'| == |u|
    ensures p' == CausalLayer(l, p)
    ensures p' + u' == CausalLayer(l, p + u)
    ensures p' + u' + [s'] == CausalLayer(l, p + u + [s])
  {
    var whole := CausalLayer(l, p + u + [s]);
    p', u', s' := CausalLayer(l, p), whole[|p|..|p| + |u|], whole[|p| + |u|];
    assert p + u + [s] == p + (u + [s]);
    CausalLayerPrefix(l, p, u + [s]);
    CausalLayerPrefix(l, p + u, [s]);
  }

  lemma DropCaches<S(!new)>(layers: seq<Layer<S>>, states: seq<S>, n: nat)
    requires AllShaped(layers) && layers != [] && n <= |states|
    ensures Caches(layers, states)[0] == KVs(layers[0], states)
    ensures Caches(layers, states)[1..] == Caches(layers[1..], CausalLayer(layers[0], states))
    ensures CachesFit(layers, Drop(Caches(layers, states), n))
    ensures Drop(Caches(layers, states), n)[0] == KVs(layers[0], states)[n..]
    ensures Drop(Caches(layers, states), n)[1..]
         == Drop(Caches(layers[1..], CausalLayer(layers[0], states)), n)
  {
  }

  lemma DecodeOneLayer<S(!new)>(l: Layer<S>, p: seq<S>, u: seq<S>, s: S)
    requires Shaped(l) && p != []
    ensures KVs(l, p + u)[|p|..] + [l.kv(s)] == KVs(l, p + u + [s])[|p|..]
    ensures l.att.AllFit(KVs(l, p + u + [s])[|p|..])
    ensures l.finish(s, l.att.RelayAll(l.query(s), KVs(l, p), KVs(l, p + u + [s])[|p|..]))
         == CausalLayer(l, p + u + [s])[|p| + |u|]
  {
    var all := p + u + [s];
    var ctx := KVs(l, all)[|p|..];
    assert KVs(l, p) + ctx == KVs(l, all);
    assert all[..|p| + |u| + 1] == all;
    RelayIsConcatenation(l.att, l.query(s), KVs(l, p), ctx);
  }

  /** The whole request: for every split of the user tokens into a prompt and decoded tokens, every
      user token ends in the state of a single causal run over prefix, prompt and decoded tokens. */
  lemma {:induction false} ServeIsCausal<S(!new)>(
      layers: seq<Layer<S>>, p: seq<S>, prompt: seq<S>, decoded: seq<S>)
    requires AllShaped(layers) && p != []
    ensures CachesFit(layers, Caches(layers, p))
    ensures Serve(layers, Caches(layers, p), prompt, decoded)
         == (CausalRun(layers, p + (prompt + decoded))[|p|..],
             Drop(Caches(layers, p + (prompt + decoded)), |p|))
    decreases |decoded|
  {
    if decoded == [] {
      assert prompt + decoded == prompt;
      RelayRunIsCausal(layers, p, prompt);
    } else {
      var n := |decoded| - 1;
      var u, s := prompt + decoded[..n], decoded[n];
      ServeIsCausal(layers, p, prompt, decoded[..n]);
      DecodeIsCausal(layers, p, u, s);
      assert prompt + decoded == u + [s];
      assert p + (u + [s]) == p + u + [s];
      CausalRunPrefix(layers, p + u, [s]);
      var final := CausalRun(layers, p + u + [s]);
      assert final[|p|..] == final[..|p + u|][|p|..] + [final[|p| + |u|]];
    }
  }
}
