/** Bounds on the ratios the framework reports (success and approval rates,
    averages). Division on reals is hard for the solver; these small facts are
    stated once and used wherever a rate is computed. */
module Ratio {

  /** A count over a larger positive total is a proportion, and a positive one
      when the count is. */
  lemma {:induction false} RatioBounds(n: nat, d: nat)
    requires 0 < d && n <= d
    ensures 0.0 <= n as real / d as real <= 1.0
    ensures n > 0 ==> n as real / d as real > 0.0
  {
    assert n as real <= d as real;
  }

  /** A sum between `n * lo` and `n * hi` has its mean between `lo` and `hi`. */
  lemma {:induction false} MeanBetween(sum: real, n: nat, lo: real, hi: real)
    requires n > 0 && n as real * lo <= sum <= n as real * hi
    ensures lo <= sum / n as real <= hi
  {
    var d := n as real;
    var q := sum / d;
    assert q * d == sum;
    assert (q - lo) * d == sum - d * lo;
    assert (hi - q) * d == d * hi - sum;
  }

  /** `n / max(1, d)`: a proportion whenever `n <= d`. */
  function RateOf(n: nat, d: nat): (r: real)
    ensures n <= d ==> 0.0 <= r <= 1.0
    ensures d == 0 ==> r == n as real
    ensures 0 < n <= d ==> r > 0.0
  {
    var m := if d < 1 then 1 else d;
    assert n <= d ==> 0.0 <= n as real / m as real <= 1.0 && (n > 0 ==> n as real / m as real > 0.0) by {
      if n <= d { RatioBounds(n, m); }
    }
    n as real / m as real
  }
}
