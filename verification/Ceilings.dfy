/** Rounding a CPU limit up to whole CPUs, and whole CPUs up to whole clusters. */
module Ceilings {

  /** std::ceil on the reals. */
  function Ceil(x: real): (r: int)
    ensures (r - 1) as real < x <= r as real
  {
    -((-x).Floor)
  }

  lemma CeilMonotone(x: real, y: real)
    requires x <= y
    ensures Ceil(x) <= Ceil(y)
  {
  }

  lemma CeilIsLeast(x: real, k: int)
    ensures Ceil(x) <= k <==> x <= k as real
  {
  }

  /** ceil(a / b) on whole numbers. */
  function CeilDiv(a: nat, b: nat): (r: nat)
    requires b > 0
  {
    (a + b - 1) / b
  }

  /** Filling whole clusters leaves the last one a request between one core and all of its cores. */
  lemma LastShare(need: nat, cores: nat)
    requires need > 0 && cores > 0
    ensures CeilDiv(need, cores) >= 1
    ensures 0 < need - (CeilDiv(need, cores) - 1) * cores <= cores
  {
    var q := CeilDiv(need, cores);
    var r := (need + cores - 1) % cores;
    assert need + cores - 1 == q * cores + r by { DivModFact(need + cores - 1, cores); }
    assert 0 <= r < cores;
    assert (q - 1) * cores == q * cores - cores;
  }

  lemma DivModFact(a: nat, m: nat)
    requires m > 0
    ensures a == (a / m) * m + a % m && 0 <= a % m < m
  {
  }

  /** The double quotient rounded up is the whole-CPU quotient rounded up. */
  lemma CeilOfQuotient(x: real, cores: nat)
    requires cores > 0 && x > 0.0
    ensures Ceil(x) > 0
    ensures Ceil(x / cores as real) == CeilDiv(Ceil(x), cores)
  {
    var k := cores as real;
    var q := Ceil(x / k);
    var n: nat := Ceil(x);
    var m := CeilDiv(n, cores);
    LastShare(n, cores);
    assert (m - 1) * cores < n <= m * cores by {
      assert m * cores == (m - 1) * cores + cores;
    }
    // (m - 1) * cores < x <= m * cores
    CeilIsLeast(x, (m - 1) * cores);
    CeilIsLeast(x, m * cores);
    RealProduct(m - 1, cores);
    RealProduct(m, cores);
    QuotientBetween(x, (m - 1) as real, k);
    QuotientBetween(x, m as real, k);
    CeilIsLeast(x / k, m - 1);
    CeilIsLeast(x / k, m);
  }

  lemma RealProduct(a: int, b: int)
    ensures (a * b) as real == a as real * b as real
  {
  }

  lemma QuotientBetween(x: real, a: real, k: real)
    requires k > 0.0
    ensures x / k <= a <==> x <= a * k
  {
    var q := x / k;
    assert q * k == x;
    if q <= a {
      assert q * k <= a * k;
    } else {
      assert q * k > a * k;
    }
  }
}
