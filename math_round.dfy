/** `Math.round` of a ratio of integers, as the dashboard uses it for its percentages: the nearest
    integer, halves rounded up. The ratio is exact here; the floating-point quotient the browser
    computes first is not modelled. */
module MathRound {
  /** `Math.round(n / d)` for a positive `d`. */
  function Round(n: int, d: int): (r: int)
    requires d > 0
    ensures 2 * d * r - d <= 2 * n < 2 * d * r + d
  {
    var r := (2 * n + d) / (2 * d);
    assert (2 * n + d) / (2 * d) * (2 * d) <= 2 * n + d < (2 * n + d) / (2 * d) * (2 * d) + 2 * d;
    r
  }

  /** Only one integer is that close to `n / d`. */
  lemma RoundUnique(n: int, d: int, k: int)
    requires d > 0 && 2 * d * k - d <= 2 * n < 2 * d * k + d
    ensures Round(n, d) == k
  {
    var r := Round(n, d);
    if r < k {
      assert 2 * d * (r + 1) <= 2 * d * k by { MulLeft(2 * d, r + 1, k); }
    } else if r > k {
      assert 2 * d * (k + 1) <= 2 * d * r by { MulLeft(2 * d, k + 1, r); }
    }
  }

  lemma MulLeft(c: int, a: int, b: int)
    requires c >= 0 && a <= b
    ensures c * a <= c * b
  {
  }

  /** A larger numerator never rounds lower. */
  lemma RoundMonotone(n1: int, n2: int, d: int)
    requires d > 0 && n1 <= n2
    ensures Round(n1, d) <= Round(n2, d)
  {
    var r1, r2 := Round(n1, d), Round(n2, d);
    if r2 < r1 {
      assert 2 * d * (r2 + 1) <= 2 * d * r1 by { MulLeft(2 * d, r2 + 1, r1); }
    }
  }

  /** An exact multiple rounds to itself. */
  lemma RoundExact(k: int, d: int)
    requires d > 0
    ensures Round(k * d, d) == k
  {
    RoundUnique(k * d, d, k);
  }
}
