/** Powers, quotients and real division, for the proofs that need them in small steps. */
module Arithmetic {

  function Pow2(n: nat): (p: nat)
    ensures p >= 1
  {
    if n == 0 then 1 else 2 * Pow2(n - 1)
  }

  lemma {:induction false} Pow2Adds(a: nat, b: nat)
    ensures Pow2(a + b) == Pow2(a) * Pow2(b)
  {
    if a > 0 {
      Pow2Adds(a - 1, b);
    }
  }

  lemma DivideIs(a: nat, d: nat, q: nat)
    requires d > 0 && q == a / d
    ensures q * d <= a < q * d + d
  {
  }

  lemma SmallMultiple(k: int, d: nat)
    requires k * d < d
    ensures k <= 0
  {
    if k > 0 {
      MultipleAtLeast(k, d);
      assert false;
    }
  }

  lemma MultipleAtLeast(k: nat, d: nat)
    requires k > 0
    ensures k * d >= d
  {
    assert k * d == (k - 1) * d + d;
  }

  lemma QuotientIs(a: nat, d: nat, q: int)
    requires d > 0 && q * d <= a < q * d + d
    ensures a / d == q
  {
    var r := a / d;
    DivideIs(a, d, r);
    assert (r - q) * d < d && (q - r) * d < d;
    SmallMultiple(r - q, d);
    SmallMultiple(q - r, d);
  }

  lemma DivideParts(n: nat, window: nat)
    requires window > 0
    ensures n == (n / window) * window + n % window && n % window < window
  {
  }

  lemma DividesUniquely(n: nat, window: nat, q: nat, r: nat)
    requires 0 <= r < window && n == q * window + r
    ensures n / window == q && n % window == r
  {
    QuotientIs(n, window, q);
    DivideParts(n, window);
  }

  lemma DivMono(a: real, b: real, v: real)
    requires a <= b && v > 0.0
    ensures a / v <= b / v
  {
  }

  lemma DivAdd(a: real, b: real, v: real)
    requires v > 0.0
    ensures (a + b) / v == a / v + b / v
  {
  }

  lemma DivCancel(a: real, v: real)
    requires v > 0.0
    ensures (a * v) / v == a
  {
  }

  lemma MulDiv(a: real, b: real, v: real)
    requires v > 0.0
    ensures a * (b / v) == (a * b) / v
  {
  }
}
