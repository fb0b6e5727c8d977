/** The few facts about products, quotients and remainders that the address and size computations
    rest on. */
module Arithmetic {

  lemma MulMono(a: nat, b: nat, c: nat)
    requires a <= b
    ensures a * c <= b * c
  {
    assert b * c - a * c == (b - a) * c;
  }

  lemma NonzeroMultiple(k: int, d: nat)
    requires k != 0
    ensures k * d >= d || k * d <= 0 - d
  {
    if k >= 1 {
      MulMono(1, k, d);
    } else {
      MulMono(1, -k, d);
    }
  }

  /** Quotient and remainder are the only way to split a number. */
  lemma DivModUnique(q: nat, r: nat, d: nat)
    requires r < d
    ensures (q * d + r) / d == q && (q * d + r) % d == r
  {
    var x := q * d + r;
    assert x == x / d * d + x % d;
    var k := q - x / d;
    assert k * d == q * d - x / d * d;
    if k != 0 {
      NonzeroMultiple(k, d);
      assert false;
    }
  }

  lemma DivBound(x: nat, q: nat, d: nat)
    requires d > 0 && x < q * d
    ensures x / d < q
  {
    assert x == x / d * d + x % d;
    if x / d >= q {
      MulMono(q, x / d, d);
      assert false;
    }
  }

  lemma ProductPositive(a: nat, b: nat)
    requires a * b > 0
    ensures a > 0 && b > 0
  {
  }
}
