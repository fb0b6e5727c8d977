/** Softmax attention of one query over a list of scored values, in real arithmetic, and the
    log-sum-exp fusion that joins two such attentions.

    The exponential is a parameter: all that is used of it is that it is positive and turns sums
    into products, so every statement holds for the true exponential. */
module Softmax {

  type Vec = seq<real>

  ghost predicate SumToProduct(exp: real -> real, x: real, y: real) {
    exp(x + y) == exp(x) * exp(y)
  }

  ghost predicate IsExp(exp: real -> real) {
    && (forall x: real :: exp(x) > 0.0)
    && (forall x: real, y: real :: SumToProduct(exp, x, y))
  }

  /** `log` gives, for every positive number, a real whose exponential it is. */
  ghost predicate IsLog(exp: real -> real, log: real -> real) {
    forall w: real :: w > 0.0 ==> exp(log(w)) == w
  }

  /** The exponential of one number. */
  function Exp(exp: real -> real, x: real): (e: real)
    requires IsExp(exp)
    ensures e > 0.0
  {
    exp(x)
  }

  /** The softmax denominator: the sum of the exponentials of the scores. */
  function WeightSum(exp: real -> real, scores: seq<real>): (w: real)
    requires IsExp(exp)
    ensures w >= 0.0
    ensures scores != [] <==> w > 0.0
  {
    if scores == [] then 0.0 else Exp(exp, scores[0]) + WeightSum(exp, scores[1..])
  }

  /** The softmax numerator of component `c`. */
  function Numerator(exp: real -> real, scores: seq<real>, values: seq<Vec>, c: nat): real
    requires IsExp(exp)
    requires |scores| == |values|
    requires forall i :: 0 <= i < |values| ==> c < |values[i]|
  {
    if scores == [] then 0.0
    else Exp(exp, scores[0]) * values[0][c] + Numerator(exp, scores[1..], values[1..], c)
  }

  function Quotient(n: real, d: real): real
    requires d != 0.0
  {
    n / d
  }

  /** One component of the attention; 0 over an empty context. */
  function Component(exp: real -> real, scores: seq<real>, values: seq<Vec>, c: nat): real
    requires IsExp(exp)
    requires |scores| == |values|
    requires forall i :: 0 <= i < |values| ==> c < |values[i]|
  {
    if scores == [] then 0.0
    else Quotient(Numerator(exp, scores, values, c), WeightSum(exp, scores))
  }

  /** Softmax attention; over an empty context it is the zero vector. */
  function Attend(exp: real -> real, scores: seq<real>, values: seq<Vec>, dim: nat): (out: Vec)
    requires IsExp(exp)
    requires |scores| == |values|
    requires forall i :: 0 <= i < |values| ==> |values[i]| == dim
    ensures |out| == dim
  {
    seq(dim, c requires 0 <= c < dim => Component(exp, scores, values, c))
  }

  /** The weight given to the system part: 1 / (1 + exp(lseUsr - lseSys)). */
  function Alpha(exp: real -> real, lseSys: real, lseUsr: real): (alpha: real)
    requires IsExp(exp)
    ensures 0.0 < alpha < 1.0
  {
    Share(Exp(exp, lseUsr - lseSys))
  }

  function Share(e: real): (r: real)
    requires e > 0.0
    ensures 0.0 < r < 1.0
    ensures r * (1.0 + e) == 1.0
  {
    var r := 1.0 / (1.0 + e);
    assert r * (1.0 + e) == 1.0;
    r
  }

  function Mix(alpha: real, x: real, y: real): real {
    alpha * x + (1.0 - alpha) * y
  }

  /** The fusion formula, component by component. */
  function Fuse(exp: real -> real, outSys: Vec, lseSys: real, outUsr: Vec, lseUsr: real): (out: Vec)
    requires IsExp(exp)
    requires |outSys| == |outUsr|
    ensures |out| == |outSys|
  {
    var alpha := Alpha(exp, lseSys, lseUsr);
    seq(|outSys|, c requires 0 <= c < |outSys| => Mix(alpha, outSys[c], outUsr[c]))
  }

  lemma {:induction false} WeightSumConcat(exp: real -> real, s: seq<real>, t: seq<real>)
    requires IsExp(exp)
    ensures WeightSum(exp, s + t) == WeightSum(exp, s) + WeightSum(exp, t)
  {
    if s == [] {
      assert s + t == t;
    } else {
      assert (s + t)[1..] == s[1..] + t;
      WeightSumConcat(exp, s[1..], t);
    }
  }

  lemma {:induction false} NumeratorConcat(
      exp: real -> real, s: seq<real>, v: seq<Vec>, t: seq<real>, w: seq<Vec>, c: nat)
    requires IsExp(exp)
    requires |s| == |v| && |t| == |w|
    requires forall i :: 0 <= i < |v| ==> c < |v[i]|
    requires forall i :: 0 <= i < |w| ==> c < |w[i]|
    ensures Numerator(exp, s + t, v + w, c) == Numerator(exp, s, v, c) + Numerator(exp, t, w, c)
  {
    if s == [] {
      assert s + t == t && v + w == w;
    } else {
      assert (s + t)[1..] == s[1..] + t && (v + w)[1..] == v[1..] + w;
      NumeratorConcat(exp, s[1..], v[1..], t, w, c);
    }
  }

  lemma ComponentConcat(
      exp: real -> real, s: seq<real>, v: seq<Vec>, t: seq<real>, w: seq<Vec>, c: nat)
    requires IsExp(exp)
    requires |s| == |v| > 0 && |t| == |w| > 0
    requires forall i :: 0 <= i < |v| ==> c < |v[i]|
    requires forall i :: 0 <= i < |w| ==> c < |w[i]|
    ensures Component(exp, s + t, v + w, c)
         == Quotient(Numerator(exp, s, v, c) + Numerator(exp, t, w, c),
                     WeightSum(exp, s) + WeightSum(exp, t))
  {
    assert s + t != [];
    WeightSumConcat(exp, s, t);
    NumeratorConcat(exp, s, v, t, w, c);
  }

  /** Mixing two means by weights in the ratio w : w' gives the mean of the union. */
  lemma WeightedMean(n: real, w: real, n': real, w': real, e: real)
    requires w > 0.0 && w' > 0.0 && e > 0.0 && e * w == w'
    ensures Mix(Share(e), Quotient(n, w), Quotient(n', w')) == Quotient(n + n', w + w')
  {
    var a, x, y := Share(e), Quotient(n, w), Quotient(n', w');
    var total := w + w';
    assert x * w == n && y * w' == n';
    assert a * total == w by {
      assert total == (1.0 + e) * w;
      assert a * ((1.0 + e) * w) == (a * (1.0 + e)) * w;
    }
    var mix := Mix(a, x, y);
    calc {
      mix * total;
      (a * total) * x + (total - a * total) * y;
      w * x + w' * y;
      n + n';
    }
  }

  lemma LseRatio(exp: real -> real, lseSys: real, lseUsr: real)
    requires IsExp(exp)
    ensures Exp(exp, lseUsr - lseSys) * Exp(exp, lseSys) == Exp(exp, lseUsr)
  {
    assert SumToProduct(exp, lseUsr - lseSys, lseSys);
    assert lseUsr - lseSys + lseSys == lseUsr;
  }

  lemma MixOfMeans(
      n: real, w: real, n': real, w': real, exp: real -> real, lseSys: real, lseUsr: real)
    requires IsExp(exp)
    requires Exp(exp, lseSys) == w && Exp(exp, lseUsr) == w'
    ensures Mix(Alpha(exp, lseSys, lseUsr), Quotient(n, w), Quotient(n', w')) == Quotient(n + n', w + w')
  {
    LseRatio(exp, lseSys, lseUsr);
    WeightedMean(n, w, n', w', Exp(exp, lseUsr - lseSys));
  }

  /** The fusion law at one component. */
  lemma FuseComponent(
      exp: real -> real, s: seq<real>, v: seq<Vec>, lseSys: real,
      t: seq<real>, w: seq<Vec>, lseUsr: real, c: nat)
    requires IsExp(exp)
    requires |s| == |v| > 0 && |t| == |w| > 0
    requires forall i :: 0 <= i < |v| ==> c < |v[i]|
    requires forall i :: 0 <= i < |w| ==> c < |w[i]|
    requires Exp(exp, lseSys) == WeightSum(exp, s) && Exp(exp, lseUsr) == WeightSum(exp, t)
    ensures Mix(Alpha(exp, lseSys, lseUsr), Component(exp, s, v, c), Component(exp, t, w, c))
         == Component(exp, s + t, v + w, c)
  {
    ComponentConcat(exp, s, v, t, w, c);
    MixOfMeans(Numerator(exp, s, v, c), WeightSum(exp, s),
               Numerator(exp, t, w, c), WeightSum(exp, t), exp, lseSys, lseUsr);
  }

  /** Fusing is attending over the concatenation, whatever the two contexts, as long as each lse is
      the logarithm of its own weight sum. */
  lemma FusionIsConcatenation(
      exp: real -> real, s: seq<real>, v: seq<Vec>, lseSys: real,
      t: seq<real>, w: seq<Vec>, lseUsr: real, dim: nat)
    requires IsExp(exp)
    requires |s| == |v| > 0 && |t| == |w| > 0
    requires forall i :: 0 <= i < |v| ==> |v[i]| == dim
    requires forall i :: 0 <= i < |w| ==> |w[i]| == dim
    requires Exp(exp, lseSys) == WeightSum(exp, s) && Exp(exp, lseUsr) == WeightSum(exp, t)
    ensures Fuse(exp, Attend(exp, s, v, dim), lseSys, Attend(exp, t, w, dim), lseUsr)
         == Attend(exp, s + t, v + w, dim)
  {
    forall c: nat | c < dim
      ensures Fuse(exp, Attend(exp, s, v, dim), lseSys, Attend(exp, t, w, dim), lseUsr)[c]
           == Attend(exp, s + t, v + w, dim)[c]
    {
      FuseComponent(exp, s, v, lseSys, t, w, lseUsr, c);
    }
  }

  /** The condition on the two lse values is exact: at a component where the two attentions
      differ, the fusion agrees with the concatenation if and only if the lse difference is the
      logarithm of the ratio of the weight sums. */
  lemma FusionExactly(
      exp: real -> real, s: seq<real>, v: seq<Vec>, lseSys: real,
      t: seq<real>, w: seq<Vec>, lseUsr: real, dim: nat, c: nat)
    requires IsExp(exp)
    requires |s| == |v| > 0 && |t| == |w| > 0
    requires forall i :: 0 <= i < |v| ==> |v[i]| == dim
    requires forall i :: 0 <= i < |w| ==> |w[i]| == dim
    requires c < dim
    requires Attend(exp, s, v, dim)[c] != Attend(exp, t, w, dim)[c]
    ensures
      Fuse(exp, Attend(exp, s, v, dim), lseSys, Attend(exp, t, w, dim), lseUsr)[c]
        == Attend(exp, s + t, v + w, dim)[c]
      <==> Exp(exp, lseUsr - lseSys) == Quotient(WeightSum(exp, t), WeightSum(exp, s))
  {
    FuseComponentExactly(exp, s, v, lseSys, t, w, lseUsr, c);
    assert Attend(exp, s + t, v + w, dim)[c] == Component(exp, s + t, v + w, c);
  }

  lemma FuseComponentExactly(
      exp: real -> real, s: seq<real>, v: seq<Vec>, lseSys: real,
      t: seq<real>, w: seq<Vec>, lseUsr: real, c: nat)
    requires IsExp(exp)
    requires |s| == |v| > 0 && |t| == |w| > 0
    requires forall i :: 0 <= i < |v| ==> c < |v[i]|
    requires forall i :: 0 <= i < |w| ==> c < |w[i]|
    requires Component(exp, s, v, c) != Component(exp, t, w, c)
    ensures Mix(Alpha(exp, lseSys, lseUsr), Component(exp, s, v, c), Component(exp, t, w, c))
            == Component(exp, s + t, v + w, c)
       <==> Exp(exp, lseUsr - lseSys) == Quotient(WeightSum(exp, t), WeightSum(exp, s))
  {
    ComponentConcat(exp, s, v, t, w, c);
    MixOfMeansExactly(Numerator(exp, s, v, c), WeightSum(exp, s),
                      Numerator(exp, t, w, c), WeightSum(exp, t),
                      Component(exp, s, v, c), Component(exp, t, w, c),
                      Component(exp, s + t, v + w, c), Exp(exp, lseUsr - lseSys));
  }

  lemma MixOfMeansExactly(
      n: real, w: real, n': real, w': real, x: real, y: real, z: real, e: real)
    requires w > 0.0 && w' > 0.0 && e > 0.0
    requires x == Quotient(n, w) && y == Quotient(n', w') && z == Quotient(n + n', w + w') && x != y
    ensures Mix(Share(e), x, y) == z <==> e == Quotient(w', w)
  {
    assert Quotient(w', w) > 0.0 && Quotient(w', w) * w == w' by { Positive(w', w); }
    WeightedMean(n, w, n', w', Quotient(w', w));
    MixDiffers(e, Quotient(w', w), x, y);
  }

  /** Two mixtures of different numbers agree exactly when their ratios do. */
  lemma MixDiffers(e: real, f: real, x: real, y: real)
    requires e > 0.0 && f > 0.0 && x != y
    ensures Mix(Share(e), x, y) == Mix(Share(f), x, y) <==> e == f
  {
    var a, b := Share(e), Share(f);
    assert Mix(a, x, y) - Mix(b, x, y) == (a - b) * (x - y);
    if a == b {
      assert a * (e - f) == 0.0;
    }
  }

  lemma Positive(x: real, y: real)
    requires x > 0.0 && y > 0.0
    ensures Quotient(x, y) > 0.0
  {
    assert Quotient(x, y) * y == x;
  }
}
