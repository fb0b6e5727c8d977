/** What attention computes, said without the functions that compute it: which keys and values a query
    head reads, what a score is, and that the output is the mean of the values by the softmax of the
    scores. */
module AttentionLaws {
  import opened Arithmetic
  import opened Softmax
  import opened RelayModel

  // ---- the inner product ----

  function Plus(a: Vec, b: Vec): (r: Vec)
    requires |a| == |b|
    ensures |r| == |a|
  {
    seq(|a|, i requires 0 <= i < |a| => a[i] + b[i])
  }

  function Times(x: real, a: Vec): (r: Vec)
    ensures |r| == |a| && forall i :: 0 <= i < |a| ==> r[i] == Product(x, a[i])
  {
    seq(|a|, i requires 0 <= i < |a| => Product(x, a[i]))
  }

  function Product(x: real, y: real): real {
    x * y
  }

  /** The vector of n zeros but for a 1 at i. */
  function Unit(n: nat, i: nat): (r: Vec)
    ensures |r| == n
  {
    seq(n, k => if k == i then 1.0 else 0.0)
  }

  function Ones(n: nat): (r: Vec)
    ensures |r| == n
  {
    seq(n, _ => 1.0)
  }

  lemma {:induction false} DotCommutes(a: Vec, b: Vec)
    ensures Dot(a, b) == Dot(b, a)
  {
    if a != [] && b != [] {
      DotCommutes(a[1..], b[1..]);
    }
  }

  lemma {:induction false} DotPlus(a: Vec, b: Vec, c: Vec)
    requires |b| == |c|
    ensures Dot(a, Plus(b, c)) == Dot(a, b) + Dot(a, c)
  {
    if a != [] && b != [] {
      assert Plus(b, c)[1..] == Plus(b[1..], c[1..]);
      DotPlus(a[1..], b[1..], c[1..]);
    }
  }

  lemma {:induction false} DotTimes(x: real, a: Vec, b: Vec)
    ensures Dot(Times(x, a), b) == x * Dot(a, b)
  {
    if a != [] && b != [] {
      TimesTail(x, a);
      DotTimes(x, a[1..], b[1..]);
      assert Dot(Times(x, a), b) == Product(x, a[0]) * b[0] + x * Dot(a[1..], b[1..]);
    }
  }

  lemma TimesTail(x: real, a: Vec)
    requires a != []
    ensures Times(x, a)[1..] == Times(x, a[1..])
  {
    forall i | 0 <= i < |a| - 1
      ensures Times(x, a)[1..][i] == Times(x, a[1..])[i]
    {
      assert a[1..][i] == a[i + 1];
    }
  }

  /** Against a unit vector the inner product is the coordinate. With its additivity in either argument
      that leaves one function only. */
  lemma {:induction false} DotUnit(a: Vec, i: nat)
    ensures Dot(a, Unit(|a|, i)) == if i < |a| then a[i] else 0.0
  {
    if a != [] {
      var n := |a| - 1;
      if i == 0 {
        DotUnit(a[1..], n);
        assert Unit(|a|, 0)[1..] == Unit(n, n);
      } else {
        DotUnit(a[1..], i - 1);
        assert Unit(|a|, i)[1..] == Unit(n, i - 1);
      }
    }
  }

  // ---- heads and scores ----

  /** Query heads in groups of equal size, in order: head h belongs to group g. */
  predicate InGroup(a: Attention, h: nat, g: nat)
    requires a.numKvHeads > 0
  {
    g * (a.numHeads / a.numKvHeads) <= h < (g + 1) * (a.numHeads / a.numKvHeads)
  }

  /** A query head reads the key/value head of its group. */
  lemma KvHeadExactly(a: Attention, h: nat, g: nat)
    requires a.Valid() && h < a.numHeads
    ensures a.KvHead(h) == g <==> InGroup(a, h, g)
  {
    var group := a.numHeads / a.numKvHeads;
    assert a.numHeads == group * a.numKvHeads;
    assert group > 0;
    assert h == h / group * group + h % group;
    if InGroup(a, h, g) {
      DivModUnique(g, h - g * group, group);
    }
  }

  /** The score of key j is the scaled inner product of the query with the key of the head's group. */
  lemma ScoreIs(a: Attention, q: Vec, h: nat, g: nat, ctx: seq<KV>, j: nat)
    requires a.Valid() && h < a.numHeads && a.AllFit(ctx) && j < |ctx| && InGroup(a, h, g)
    ensures g < a.numKvHeads && a.Scores(q, h, ctx)[j] == a.scale * Dot(q, ctx[j].k[g])
  {
    KvHeadExactly(a, h, g);
  }

  lemma ScoresScale(a: Attention, q: Vec, h: nat, ctx: seq<KV>)
    requires a.Valid() && h < a.numHeads && a.AllFit(ctx)
    ensures a.Scores(q, h, ctx) == Times(a.scale, a.(scale := 1.0).Scores(q, h, ctx))
  {
    var one := a.(scale := 1.0);
    assert one.Valid() && one.AllFit(ctx);
    KvHeadExactly(a, h, a.KvHead(h));
    KvHeadExactly(one, h, a.KvHead(h));
    assert one.KvHead(h) == a.KvHead(h);
    forall j | 0 <= j < |ctx|
      ensures a.Scores(q, h, ctx)[j] == Times(a.scale, one.Scores(q, h, ctx))[j]
    {
      assert one.Scores(q, h, ctx)[j] == Dot(q, ctx[j].k[a.KvHead(h)]);
    }
  }

  // ---- the softmax mean ----

  function Exps(exp: real -> real, scores: seq<real>): (r: Vec)
    requires IsExp(exp)
    ensures |r| == |scores|
  {
    seq(|scores|, j requires 0 <= j < |scores| => Exp(exp, scores[j]))
  }

  function Column(values: seq<Vec>, c: nat): (r: Vec)
    requires forall j :: 0 <= j < |values| ==> c < |values[j]|
    ensures |r| == |values|
  {
    seq(|values|, j requires 0 <= j < |values| => values[j][c])
  }

  lemma {:induction false} WeightSumIs(exp: real -> real, scores: seq<real>)
    requires IsExp(exp)
    ensures WeightSum(exp, scores) == Dot(Exps(exp, scores), Ones(|scores|))
  {
    if scores != [] {
      assert Exps(exp, scores)[1..] == Exps(exp, scores[1..]);
      assert Ones(|scores|)[1..] == Ones(|scores| - 1);
      WeightSumIs(exp, scores[1..]);
    }
  }

  lemma {:induction false} NumeratorIs(exp: real -> real, scores: seq<real>, values: seq<Vec>, c: nat)
    requires IsExp(exp) && |scores| == |values|
    requires forall j :: 0 <= j < |values| ==> c < |values[j]|
    ensures Numerator(exp, scores, values, c) == Dot(Exps(exp, scores), Column(values, c))
  {
    if scores != [] {
      assert Exps(exp, scores)[1..] == Exps(exp, scores[1..]);
      assert Column(values, c)[1..] == Column(values[1..], c);
      NumeratorIs(exp, scores[1..], values[1..], c);
    }
  }

  /** Weights that sum to 1 and are to each other as the exponentials of the scores. There is only one
      such list. */
  ghost predicate IsSoftmax(exp: real -> real, scores: seq<real>, weights: Vec)
    requires IsExp(exp)
  {
    && |weights| == |scores| && Dot(weights, Ones(|weights|)) == 1.0
    && forall i, j :: 0 <= i < |scores| && 0 <= j < |scores| ==>
         Product(weights[i], Exp(exp, scores[j])) == Product(weights[j], Exp(exp, scores[i]))
  }

  lemma SoftmaxOf(exp: real -> real, scores: seq<real>) returns (weights: Vec)
    requires IsExp(exp) && scores != []
    ensures IsSoftmax(exp, scores, weights)
    ensures weights == Times(Quotient(1.0, WeightSum(exp, scores)), Exps(exp, scores))
  {
    var w := WeightSum(exp, scores);
    weights := Times(Quotient(1.0, w), Exps(exp, scores));
    WeightSumIs(exp, scores);
    DotTimes(Quotient(1.0, w), Exps(exp, scores), Ones(|scores|));
    assert Dot(weights, Ones(|scores|)) == Quotient(1.0, w) * w == 1.0;
    forall i, j | 0 <= i < |scores| && 0 <= j < |scores|
      ensures Product(weights[i], Exp(exp, scores[j])) == Product(weights[j], Exp(exp, scores[i]))
    {
      SwapFactors(Quotient(1.0, w), Exp(exp, scores[i]), Exp(exp, scores[j]));
    }
  }

  lemma SwapFactors(x: real, y: real, z: real)
    ensures Product(Product(x, y), z) == Product(Product(x, z), y)
  {
  }

  lemma {:induction false} SoftmaxIsUnique(exp: real -> real, scores: seq<real>, weights: Vec, others: Vec)
    requires IsExp(exp) && IsSoftmax(exp, scores, weights) && IsSoftmax(exp, scores, others)
    ensures weights == others
  {
    if scores != [] {
      var e := Exp(exp, scores[0]);
      Proportional(exp, scores, weights);
      Proportional(exp, scores, others);
      DotTimes(Quotient(weights[0], e), Exps(exp, scores), Ones(|scores|));
      DotTimes(Quotient(others[0], e), Exps(exp, scores), Ones(|scores|));
      var total := Dot(Exps(exp, scores), Ones(|scores|));
      SameFactor(Quotient(weights[0], e), Quotient(others[0], e), total);
    }
  }

  lemma Proportional(exp: real -> real, scores: seq<real>, weights: Vec)
    requires IsExp(exp) && IsSoftmax(exp, scores, weights) && scores != []
    ensures weights == Times(Quotient(weights[0], Exp(exp, scores[0])), Exps(exp, scores))
  {
    var e := Exp(exp, scores[0]);
    var x := Quotient(weights[0], e);
    forall j | 0 <= j < |scores|
      ensures weights[j] == Product(x, Exp(exp, scores[j]))
    {
      assert Product(x, e) == weights[0];
      assert Product(weights[0], Exp(exp, scores[j])) == Product(weights[j], e);
      SwapFactors(x, e, Exp(exp, scores[j]));
      Cancel(weights[j], Product(x, Exp(exp, scores[j])), e);
    }
    assert weights == Times(x, Exps(exp, scores));
  }

  lemma Cancel(x: real, y: real, e: real)
    requires e > 0.0 && x * e == y * e
    ensures x == y
  {
    assert (x - y) * e == 0.0;
  }

  lemma SameFactor(x: real, y: real, total: real)
    requires x * total == 1.0 && y * total == 1.0
    ensures x == y
  {
    assert total != 0.0;
    assert (x - y) * total == 0.0;
  }

  /** Attention is the mean of the values by the softmax of the scores. */
  lemma AttendIsMean(exp: real -> real, scores: seq<real>, values: seq<Vec>, dim: nat, weights: Vec, c: nat)
    requires IsExp(exp) && |scores| == |values| > 0 && c < dim
    requires forall j :: 0 <= j < |values| ==> |values[j]| == dim
    requires IsSoftmax(exp, scores, weights)
    ensures Attend(exp, scores, values, dim)[c] == Dot(weights, Column(values, c))
  {
    var mine := SoftmaxOf(exp, scores);
    SoftmaxIsUnique(exp, scores, weights, mine);
    var w := WeightSum(exp, scores);
    NumeratorIs(exp, scores, values, c);
    DotTimes(Quotient(1.0, w), Exps(exp, scores), Column(values, c));
    Divided(Numerator(exp, scores, values, c), w);
  }

  lemma Divided(n: real, w: real)
    requires w > 0.0
    ensures Quotient(n, w) == Quotient(1.0, w) * n
  {
  }

  // ---- one attention layer ----

  function KeyScores(scale: real, q: Vec, g: nat, ctx: seq<KV>): (s: seq<real>)
    requires forall j :: 0 <= j < |ctx| ==> g < |ctx[j].k|
    ensures |s| == |ctx|
  {
    seq(|ctx|, j requires 0 <= j < |ctx| => scale * Dot(q, ctx[j].k[g]))
  }

  function HeadValues(g: nat, ctx: seq<KV>): (v: seq<Vec>)
    requires forall j :: 0 <= j < |ctx| ==> g < |ctx[j].v|
    ensures |v| == |ctx|
  {
    seq(|ctx|, j requires 0 <= j < |ctx| => ctx[j].v[g])
  }

  /** Every component of every head: the mean of the values of the head's group, by the softmax of the
      scaled inner products of its query with the keys of that group. */
  lemma AttentionIs(a: Attention, q: seq<Vec>, ctx: seq<KV>, h: nat, g: nat, weights: Vec, c: nat)
    requires a.Valid() && |q| == a.numHeads && a.AllFit(ctx) && ctx != []
    requires h < a.numHeads && InGroup(a, h, g) && g < a.numKvHeads && c < a.headSize
    requires IsSoftmax(a.exp, KeyScores(a.scale, q[h], g, ctx), weights)
    ensures a.AttendAll(q, ctx)[h][c] == Dot(weights, Column(HeadValues(g, ctx), c))
  {
    KvHeadExactly(a, h, g);
    assert a.Scores(q[h], h, ctx) == KeyScores(a.scale, q[h], g, ctx);
    assert a.Values(h, ctx) == HeadValues(g, ctx);
    AttendIsMean(a.exp, a.Scores(q[h], h, ctx), a.Values(h, ctx), a.headSize, weights, c);
  }

  /** Over a single key, whatever the query, attention is that key's value. */
  lemma AttentionToOne(a: Attention, q: seq<Vec>, kv: KV, h: nat, g: nat)
    requires a.Valid() && |q| == a.numHeads && a.Fits(kv) && h < a.numHeads && InGroup(a, h, g)
    ensures g < a.numKvHeads && a.AttendAll(q, [kv])[h] == kv.v[g]
  {
    KvHeadExactly(a, h, g);
    var scores := KeyScores(a.scale, q[h], g, [kv]);
    var weights := SoftmaxOf(a.exp, scores);
    assert weights[1..] == [] && Ones(1)[1..] == [];
    assert weights[0] == 1.0;
    forall c: nat | c < a.headSize
      ensures a.AttendAll(q, [kv])[h][c] == kv.v[g][c]
    {
      AttentionIs(a, q, [kv], h, g, weights, c);
      assert Column(HeadValues(g, [kv]), c)[1..] == [];
    }
  }
}
