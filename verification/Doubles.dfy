/** Double-precision arithmetic on non-negative numbers, as IEEE 754 rounds it (round to nearest, ties to even, section
  * 4.3.1 of IEEE 754-2019), without overflow or subnormal numbers; and what it does to the weighted estimate of the lease
  * script (src/redis/index.ts). */
module Doubles {
  import opened Arithmetic

  /** 2 to the 52nd and to the 53rd. */
  const HALF: nat := 4_503_599_627_370_496
  const FULL: nat := 9_007_199_254_740_992

  /** The unit in the last place: a power of two, small or large. */
  ghost predicate IsUlp(ulp: real) {
    ulp > 0.0 && exists k: nat :: ulp == Pow2(k) as real || ulp * Pow2(k) as real == 1.0
  }

  /** `m` units are a double nearest to `x`; just below a power of two the neighbour is half a unit away. */
  predicate Nearest(x: real, m: nat, ulp: real) {
    && HALF <= m < FULL
    && x - m as real * ulp <= ulp / 2.0 && m as real * ulp - x <= (if m == HALF then ulp / 4.0 else ulp / 2.0)
    && (x - m as real * ulp == ulp / 2.0 || m as real * ulp - x == ulp / 2.0 ==> m % 2 == 0)
  }

  ghost predicate Rounds(x: real, d: real) {
    (x == 0.0 && d == 0.0) || (x > 0.0 && exists m: nat, ulp: real :: IsUlp(ulp) && Nearest(x, m, ulp) && d == m as real * ulp)
  }

  predicate OffByLittle(x: real, d: real) {
    d >= 0.0 && (d - x) * 9_007_199_254_740_992.0 <= x && (x - d) * 9_007_199_254_740_992.0 <= x
  }

  /** Rounding is off by at most one part in 2 to the 53rd. */
  lemma RelativeError(x: real, d: real)
    requires Rounds(x, d)
    ensures x >= 0.0 && OffByLittle(x, d)
  {
    if x > 0.0 {
      var m: nat, ulp: real :| IsUlp(ulp) && Nearest(x, m, ulp) && d == m as real * ulp;
      assert ulp > 0.0;
      hide IsUlp, Nearest, Rounds, OffByLittle;
      NearestError(x, m, ulp, d);
    }
  }

  lemma NearestError(x: real, m: nat, ulp: real, d: real)
    requires ulp > 0.0 && Nearest(x, m, ulp) && d == m as real * ulp
    ensures OffByLittle(x, d)
  {
    Scales(4_503_599_627_370_496.0, m as real, ulp);
    if m > HALF {
      Scales(4_503_599_627_370_497.0, m as real, ulp);
    }
  }

  lemma Scales(a: real, b: real, c: real)
    requires a <= b && c >= 0.0
    ensures a * c <= b * c
  {
  }

  lemma AsDouble(x: real, d: real) returns (m: nat, ulp: real)
    requires Rounds(x, d) && x > 0.0
    ensures IsUlp(ulp) && Nearest(x, m, ulp) && d == m as real * ulp
  {
    m, ulp :| IsUlp(ulp) && Nearest(x, m, ulp) && d == m as real * ulp;
  }

  lemma Inverse(ulp: real) returns (p: nat)
    requires IsUlp(ulp) && ulp < 1.0
    ensures p >= 1 && ulp * p as real == 1.0
  {
    var k: nat :| ulp == Pow2(k) as real || ulp * Pow2(k) as real == 1.0;
    p := Pow2(k);
  }

  lemma UlpIsPositive(ulp: real)
    requires IsUlp(ulp)
    ensures ulp > 0.0
  {
  }

  /** Small integers are doubles. */
  lemma IntegersAreExact(k: nat, d: real)
    requires k <= 1_125_899_906_842_624 && Rounds(k as real, d)
    ensures d == k as real
  {
    if k > 0 {
      var m, ulp := AsDouble(k as real, d);
      hide Rounds, IsUlp, Nearest;
      UlpIsPositive(ulp);
      SmallUlp(k as real, m, ulp);
      var p := Inverse(ulp);
      NearestIsNear(k as real, m, ulp);
      WholeUnits(k, m, ulp, p, d);
    }
  }

  lemma SmallUlp(x: real, m: nat, ulp: real)
    requires ulp > 0.0 && x <= 1_125_899_906_842_624.0 && Nearest(x, m, ulp)
    ensures ulp < 1.0
  {
    Scales(4_503_599_627_370_496.0, m as real, ulp);
    assert x >= 4_503_599_627_370_495.5 * ulp && x <= 1_125_899_906_842_624.0;
  }

  lemma NearestIsNear(x: real, m: nat, ulp: real)
    requires ulp > 0.0 && Nearest(x, m, ulp)
    ensures -(ulp / 2.0) <= m as real * ulp - x <= ulp / 2.0
  {
  }

  lemma WholeUnits(k: nat, m: nat, ulp: real, p: nat, d: real)
    requires p >= 1 && ulp * p as real == 1.0 && d == m as real * ulp && -(ulp / 2.0) <= d - k as real <= ulp / 2.0
    ensures d == k as real
  {
    var r, x := p as real, k as real;
    Regroup(m as real, ulp, r);
    assert d * r == m as real;
    Halves(ulp, r);
    ScaledDistance(d, x, ulp / 2.0, r, m as real);
    ProductAsReal(k, p);
    SameInteger(m, k * p);
    Regroup(x, r, ulp);
  }

  lemma ScaledDistance(d: real, x: real, h: real, r: real, dr: real)
    requires -h <= d - x <= h && r >= 0.0 && h * r == 0.5 && d * r == dr
    ensures -0.5 <= dr - x * r <= 0.5
  {
    Distribute(d, x, r);
    Scales(d - x, h, r);
    Scales(x - d, h, r);
    assert (d - x) * r <= 0.5 && (x - d) * r <= 0.5;
  }

  lemma Halves(ulp: real, r: real)
    requires ulp * r == 1.0
    ensures ulp / 2.0 * r == 0.5
  {
  }

  lemma ProductAsReal(k: nat, p: nat)
    ensures (k * p) as real == k as real * p as real
  {
  }

  lemma SameInteger(a: int, b: int)
    requires -0.5 <= a as real - b as real <= 0.5
    ensures a == b
  {
  }

  lemma Regroup(a: real, b: real, c: real)
    requires b * c == 1.0
    ensures (a * b) * c == a
  {
    assert (a * b) * c == a * (b * c);
  }

  lemma Distribute(a: real, b: real, c: real)
    ensures (a - b) * c == a * c - b * c && (b - a) * c == b * c - a * c
  {
  }

  // ---------------------------------------------------------------- the weighted estimate

  /** `floor(prev * ((window - offset) / window) + current)` in double arithmetic may come out as `e`. */
  ghost predicate Computes(prev: nat, current: nat, offset: nat, window: nat, e: int)
    requires offset < window
  {
    exists w: real, p: real, s: real {:trigger Steps(prev as real, current as real, (window - offset) as real, window as real, w, p, s)} ::
      Steps(prev as real, current as real, (window - offset) as real, window as real, w, p, s) && e == s.Floor
  }

  ghost predicate Steps(prev: real, current: real, rest: real, window: real, w: real, p: real, s: real)
    requires window > 0.0
  {
    Rounds(rest / window, w) && Rounds(prev * w, p) && Rounds(p + current, s)
  }

  /** The errors of the three roundings add up to at most five parts in 2 to the 53rd of the counts. */
  lemma ErrorsAddUp(prev: real, current: real, weight: real, w: real, p: real, s: real)
    requires prev >= 0.0 && current >= 0.0 && 0.0 <= weight <= 1.0
    requires OffByLittle(weight, w) && OffByLittle(prev * w, p) && OffByLittle(p + current, s)
    ensures var error := s - (prev * weight + current);
      -5.0 * (prev + current) <= error * 9_007_199_254_740_992.0 <= 5.0 * (prev + current)
  {
    assert w <= 1.5;
    WeightError(prev, weight, w, prev * weight, prev * w);
    LinearErrors(prev, current, prev * weight, prev * w, p, s);
  }

  lemma LinearErrors(prev: real, current: real, exact: real, product: real, p: real, s: real)
    requires prev >= 0.0 && current >= 0.0 && 0.0 <= product <= 1.5 * prev
    requires -prev <= (product - exact) * 9_007_199_254_740_992.0 <= prev
    requires OffByLittle(product, p) && OffByLittle(p + current, s)
    ensures var error := s - (exact + current);
      -5.0 * (prev + current) <= error * 9_007_199_254_740_992.0 <= 5.0 * (prev + current)
  {
  }

  lemma WeightError(prev: real, weight: real, w: real, exact: real, product: real)
    requires prev >= 0.0 && 0.0 <= weight <= 1.0 && OffByLittle(weight, w) && w <= 1.5
    requires exact == prev * weight && product == prev * w
    ensures 0.0 <= product <= 1.5 * prev
    ensures -prev <= (product - exact) * 9_007_199_254_740_992.0 <= prev
  {
    Scales(0.0, w, prev);
    Scales(w, 1.5, prev);
    var off := (w - weight) * 9_007_199_254_740_992.0;
    assert -1.0 <= off <= 1.0;
    Scales(-1.0, off, prev);
    Scales(off, 1.0, prev);
    Distribute(w, weight, prev);
    assert off * prev == (product - exact) * 9_007_199_254_740_992.0;
  }

  /** What the script subtracts from the limit, in exact arithmetic: the floor of the weighted previous count, plus the
    * current one. */
  function ExactEstimate(prev: nat, current: nat, offset: nat, window: nat): (e: nat)
    requires offset < window
  {
    prev * (window - offset) / window + current
  }

  /** The double estimate is exact, or one too low where the exact product is a whole number that rounding has undercut. */
  predicate Estimates(prev: nat, current: nat, offset: nat, window: nat, e: int)
    requires offset < window
  {
    || e == ExactEstimate(prev, current, offset, window)
    || (e == ExactEstimate(prev, current, offset, window) - 1 && prev > 0 && offset > 0 && prev * (window - offset) % window == 0)
  }

  // ---------------------------------------------------------------- what doubles make of the estimate

  lemma StepErrors(prev: real, current: real, rest: real, window: real, w: real, p: real, s: real)
    requires window > 0.0 && Steps(prev, current, rest, window, w, p, s)
    ensures OffByLittle(rest / window, w) && OffByLittle(prev * w, p) && OffByLittle(p + current, s)
  {
    RelativeError(rest / window, w);
    RelativeError(prev * w, p);
    RelativeError(p + current, s);
  }

  /** The exact value, `q` and `r` of `v` parts: how far it is from the whole numbers around it. */
  lemma Shares(q: nat, r: nat, v: real, x: real, i: real)
    requires v > 0.0 && r as real <= v - 1.0 && x == q as real + r as real * i && i * v == 1.0
    ensures q as real <= x <= q as real + 1.0 - i
    ensures r > 0 ==> x >= q as real + i
  {
    assert i > 0.0;
    Scales(0.0, r as real, i);
    Scales(r as real, v - 1.0, i);
    if r > 0 {
      Scales(1.0, r as real, i);
    }
  }

  lemma PartsAsReal(n: nat, window: nat, q: nat, r: nat)
    requires window > 0 && n == q * window + r
    ensures n as real / window as real == q as real + r as real * (1.0 / window as real)
    ensures 1.0 / window as real * window as real == 1.0
  {
    var v := window as real;
    ProductAsReal(q, window);
    DivAdd(q as real * v, r as real, v);
    DivCancel(q as real, v);
    MulDiv(r as real, 1.0, v);
    MulDiv(v, 1.0, v);
  }

  lemma FloorOfEstimate(q: nat, r: nat, window: nat, x: real, i: real, s: real, e: int)
    requires r < window && x == q as real + r as real * i && i * window as real == 1.0
    requires -i < s - x < i && e == s.Floor
    ensures e == q || (e == q - 1 && r == 0)
  {
    Shares(q, r, window as real, x, i);
    FloorBetween(q, s, e);
  }

  lemma FloorBetween(q: nat, s: real, e: int)
    requires q as real - 1.0 < s < q as real + 1.0 && e == s.Floor
    ensures e == q || e == q - 1
    ensures s >= q as real ==> e == q
  {
  }

  lemma ExactIsQuotient(prev: nat, current: nat, rest: nat, window: nat, x: real)
    requires window > 0 && x == prev as real * (rest as real / window as real) + current as real
    ensures x == (prev * rest + current * window) as real / window as real
  {
    var v := window as real;
    ProductAsReal(prev, rest);
    ProductAsReal(current, window);
    MulDiv(prev as real, rest as real, v);
    DivAdd((prev * rest) as real, (current * window) as real, v);
    DivCancel(current as real, v);
  }

  /** The counts are so small that the errors stay below one part in the window. */
  lemma ErrorIsSmall(total: nat, window: nat, i: real, error: real)
    requires window > 0 && total * window <= 1_125_899_906_842_624 && i == 1.0 / window as real
    requires -5.0 * total as real <= error * 9_007_199_254_740_992.0 <= 5.0 * total as real
    ensures -i < error < i
  {
    var v := window as real;
    ProductAsReal(total, window);
    DivMono(total as real * v, 1_125_899_906_842_624.0, v);
    DivCancel(total as real, v);
    MulDiv(1_125_899_906_842_624.0, 1.0, v);
    assert total as real <= 1_125_899_906_842_624.0 * i;
    DivMono(0.0, 1.0, v);
    assert i > 0.0;
  }

  lemma EstimateError(prev: nat, current: nat, window: nat, weight: real, w: real, p: real, s: real, x: real, i: real)
    requires window > 0 && (prev + current) * window <= 1_125_899_906_842_624 && i == 1.0 / window as real
    requires 0.0 <= weight <= 1.0 && x == prev as real * weight + current as real
    requires OffByLittle(weight, w) && OffByLittle(prev as real * w, p) && OffByLittle(p + current as real, s)
    ensures -i < s - x < i
  {
    ErrorsAddUp(prev as real, current as real, weight, w, p, s);
    hide OffByLittle;
    assert (prev + current) as real == prev as real + current as real;
    ErrorIsSmall(prev + current, window, i, s - x);
  }

  lemma ComputedBy(prev: nat, current: nat, offset: nat, window: nat, e: int) returns (w: real, p: real, s: real)
    requires offset < window && Computes(prev, current, offset, window, e)
    ensures Steps(prev as real, current as real, (window - offset) as real, window as real, w, p, s) && e == s.Floor
  {
    w, p, s :| Steps(prev as real, current as real, (window - offset) as real, window as real, w, p, s) && e == s.Floor;
  }

  lemma ExactAtTheEdge(prev: nat, current: nat, offset: nat, window: nat, w: real, p: real, s: real)
    requires offset < window && (prev == 0 || offset == 0) && prev + current <= 1_125_899_906_842_624
    requires Rounds((window - offset) as real / window as real, w) && Rounds(prev as real * w, p) && Rounds(p + current as real, s)
    ensures s == (prev + current) as real
  {
    if prev == 0 {
      assert prev as real * w == 0.0;
      NothingRounds(p);
      IntegersAreExact(current, s);
    } else {
      DivCancel(1.0, window as real);
      assert (window - offset) as real / window as real == 1.0;
      IntegersAreExact(1, w);
      assert prev as real * w == prev as real;
      IntegersAreExact(prev, p);
      assert p + current as real == (prev + current) as real;
      IntegersAreExact(prev + current, s);
    }
  }

  lemma NothingRounds(d: real)
    requires Rounds(0.0, d)
    ensures d == 0.0
  {
  }

  lemma EdgeEstimate(prev: nat, current: nat, offset: nat, window: nat)
    requires offset < window && (prev == 0 || offset == 0)
    ensures ExactEstimate(prev, current, offset, window) == prev + current
  {
    if prev == 0 {
      assert prev * (window - offset) == 0;
    } else {
      DividesUniquely(prev * window, window, prev, 0);
    }
  }

  lemma CountsAreSmall(total: nat, window: nat)
    requires window > 0 && total * window <= 1_125_899_906_842_624
    ensures total <= 1_125_899_906_842_624
  {
    assert total * window == total * (window - 1) + total;
  }

  /** For counts and windows of any practical size, three roundings never shift the floor by more than that. */
  lemma DoublesEstimate(prev: nat, current: nat, offset: nat, window: nat, e: int)
    requires offset < window && (prev + current) * window <= 1_125_899_906_842_624
    requires Computes(prev, current, offset, window, e)
    ensures Estimates(prev, current, offset, window, e)
  {
    var w, p, s := ComputedBy(prev, current, offset, window, e);
    hide Computes, Rounds, ExactEstimate;
    if prev == 0 || offset == 0 {
      CountsAreSmall(prev + current, window);
      ExactAtTheEdge(prev, current, offset, window, w, p, s);
      EdgeEstimate(prev, current, offset, window);
    } else {
      InnerEstimate(prev, current, offset, window, w, p, s, e);
    }
  }

  lemma InnerEstimate(prev: nat, current: nat, offset: nat, window: nat, w: real, p: real, s: real, e: int)
    requires 0 < offset < window && prev > 0 && (prev + current) * window <= 1_125_899_906_842_624
    requires Steps(prev as real, current as real, (window - offset) as real, window as real, w, p, s) && e == s.Floor
    ensures Estimates(prev, current, offset, window, e)
  {
    var rest := window - offset;
    hide Steps, ExactEstimate;
    CloseToExact(prev, current, rest, window, w, p, s);
    var n := prev * rest + current * window;
    DivideParts(n, window);
    PartsAsReal(n, window, n / window, n % window);
    FloorOfEstimate(n / window, n % window, window, n as real / window as real, 1.0 / window as real, s, e);
    QuotientSplits(prev * rest, current, window);
    ExactParts(prev, current, offset, window);
  }

  lemma ExactParts(prev: nat, current: nat, offset: nat, window: nat)
    requires offset < window
    ensures ExactEstimate(prev, current, offset, window) == prev * (window - offset) / window + current
  {
  }

  lemma CloseToExact(prev: nat, current: nat, rest: nat, window: nat, w: real, p: real, s: real)
    requires 0 < rest < window && (prev + current) * window <= 1_125_899_906_842_624
    requires Steps(prev as real, current as real, rest as real, window as real, w, p, s)
    ensures var x, i := (prev * rest + current * window) as real / window as real, 1.0 / window as real; -i < s - x < i
  {
    hide Steps;
    WeightIsAShare(rest, window);
    CloseByErrors(prev, current, window, rest as real, rest as real / window as real, w, p, s);
    ExactIsQuotient(prev, current, rest, window, prev as real * (rest as real / window as real) + current as real);
  }

  lemma CloseByErrors(prev: nat, current: nat, window: nat, rest: real, weight: real, w: real, p: real, s: real)
    requires window > 0 && (prev + current) * window <= 1_125_899_906_842_624
    requires weight == rest / window as real && 0.0 <= weight <= 1.0
    requires Steps(prev as real, current as real, rest, window as real, w, p, s)
    ensures var i := 1.0 / window as real; -i < s - (prev as real * weight + current as real) < i
  {
    StepErrors(prev as real, current as real, rest, window as real, w, p, s);
    hide Steps, OffByLittle;
    EstimateError(prev, current, window, weight, w, p, s, prev as real * weight + current as real, 1.0 / window as real);
  }

  lemma WeightIsAShare(rest: nat, window: nat)
    requires 0 < rest < window
    ensures 0.0 <= rest as real / window as real <= 1.0
  {
    DivMono(0.0, rest as real, window as real);
    DivMono(rest as real, window as real, window as real);
    DivCancel(1.0, window as real);
  }

  lemma QuotientSplits(a: nat, c: nat, window: nat)
    requires window > 0
    ensures (a + c * window) / window == a / window + c && (a + c * window) % window == a % window
  {
    var q, r := a / window, a % window;
    assert a + c * window == (q + c) * window + r;
    DividesUniquely(a + c * window, window, q + c, r);
  }

  // ---------------------------------------------------------------- an estimate that comes out one too low

  lemma RoundsTo(x: real, m: nat, ulp: real, d: real)
    requires x > 0.0 && IsUlp(ulp) && Nearest(x, m, ulp) && d == m as real * ulp
    ensures Rounds(x, d)
  {
  }

  lemma LargePowers()
    ensures Pow2(44) == 17_592_186_044_416 && Pow2(53) == 9_007_199_254_740_992
  {
    assert Pow2(3) == 8 && Pow2(5) == 32;
    Pow2Adds(3, 5);
    Pow2Adds(8, 3);
    Pow2Adds(11, 11);
    Pow2Adds(22, 22);
    Pow2Adds(8, 1);
    Pow2Adds(44, 9);
  }

  lemma SmallUlps()
    ensures IsUlp(1.0 / 9_007_199_254_740_992.0) && IsUlp(1.0 / 17_592_186_044_416.0)
  {
    LargePowers();
    var k: nat, l: nat := 53, 44;
    assert 1.0 / 9_007_199_254_740_992.0 * Pow2(k) as real == 1.0;
    assert 1.0 / 17_592_186_044_416.0 * Pow2(l) as real == 1.0;
  }

  const FINE: real := 1.0 / 9_007_199_254_740_992.0
  const COARSE: real := 1.0 / 17_592_186_044_416.0

  lemma WeightRounds()
    ensures Rounds(44_000.0 / 60_000.0, 6_605_279_453_476_727.0 * FINE)
  {
    SmallUlps();
    hide IsUlp;
    RoundsTo(44_000.0 / 60_000.0, 6_605_279_453_476_727, FINE, 6_605_279_453_476_727.0 * FINE);
  }

  lemma ProductRounds()
    ensures Rounds(555.0 * (6_605_279_453_476_727.0 * FINE), 7_160_019_720_077_311.0 * COARSE)
  {
    SmallUlps();
    hide IsUlp;
    RoundsTo(555.0 * (6_605_279_453_476_727.0 * FINE), 7_160_019_720_077_311, COARSE, 7_160_019_720_077_311.0 * COARSE);
  }

  lemma SumRounds()
    ensures Rounds(7_160_019_720_077_311.0 * COARSE + 105.0, 9_007_199_254_740_991.0 * COARSE)
  {
    SmallUlps();
    hide IsUlp;
    RoundsTo(7_160_019_720_077_311.0 * COARSE + 105.0, 9_007_199_254_740_991, COARSE, 9_007_199_254_740_991.0 * COARSE);
  }

  /** 555 tokens weigh 407 exactly, 16 seconds into the next minute, and a little less than 407 in doubles. */
  lemma SixteenSecondsIn()
    ensures Computes(555, 105, 16_000, 60_000, 511) && ExactEstimate(555, 105, 16_000, 60_000) == 512
  {
    var w, p, s := 6_605_279_453_476_727.0 * FINE, 7_160_019_720_077_311.0 * COARSE, 9_007_199_254_740_991.0 * COARSE;
    WeightRounds();
    ProductRounds();
    SumRounds();
    hide Rounds;
    assert Steps(555 as nat as real, 105 as nat as real, (60_000 - 16_000) as real, 60_000 as nat as real, w, p, s);
    assert s.Floor == 511;
  }
}
