/** The numeric helpers of `src/utils/math.ts`, and the minimum and maximum
    that `Math.min(...xs)` / `Math.max(...xs)` compute. Numbers are exact
    reals: floating-point rounding is not modelled. */
module MathUtils {

  function Min(a: real, b: real): real { if a <= b then a else b }

  function Max(a: real, b: real): real { if a >= b then a else b }

  function Abs(x: real): real { if x < 0.0 then -x else x }

  /** `Math.min(max, Math.max(min, value))`. */
  function Clamp(value: real, lo: real, hi: real): (r: real)
    ensures lo <= hi ==> lo <= r <= hi
    ensures lo <= value <= hi ==> r == value
    ensures lo <= hi && value < lo ==> r == lo
    ensures lo <= hi && hi < value ==> r == hi
  {
    Min(hi, Max(lo, value))
  }

  /** Clamping keeps order and never widens a gap. */
  lemma ClampMonotone(a: real, b: real, lo: real, hi: real)
    requires a <= b && lo <= hi
    ensures Clamp(a, lo, hi) <= Clamp(b, lo, hi)
    ensures Clamp(b, lo, hi) - Clamp(a, lo, hi) <= b - a
  {
  }

  /** `xs.reduce((a, b) => a + b, 0)`, a fold from the left. */
  function Sum(xs: seq<real>): real {
    if xs == [] then 0.0 else Sum(xs[..|xs| - 1]) + xs[|xs| - 1]
  }

  /** The arithmetic mean, 0 for an empty list. */
  function Mean(xs: seq<real>): (r: real)
    ensures xs == [] ==> r == 0.0
    ensures xs != [] ==> r * (|xs| as real) == Sum(xs)
  {
    if |xs| == 0 then 0.0 else Sum(xs) / (|xs| as real)
  }

  /** `Math.min(...xs)` for a non-empty list. */
  function SeqMin(xs: seq<real>): (r: real)
    requires xs != []
    ensures r in xs
    ensures forall i :: 0 <= i < |xs| ==> r <= xs[i]
  {
    if |xs| == 1 then xs[0]
    else
      var m := SeqMin(xs[..|xs| - 1]);
      assert forall i :: 0 <= i < |xs| - 1 ==> xs[..|xs| - 1][i] == xs[i];
      Min(m, xs[|xs| - 1])
  }

  /** `Math.max(...xs)` for a non-empty list. */
  function SeqMax(xs: seq<real>): (r: real)
    requires xs != []
    ensures r in xs
    ensures forall i :: 0 <= i < |xs| ==> xs[i] <= r
  {
    if |xs| == 1 then xs[0]
    else
      var m := SeqMax(xs[..|xs| - 1]);
      assert forall i :: 0 <= i < |xs| - 1 ==> xs[..|xs| - 1][i] == xs[i];
      Max(m, xs[|xs| - 1])
  }

  /** A sum of `n` terms each at least `lo` (at most `hi`) is at least `n * lo` (at most `n * hi`). */
  lemma {:induction false} SumBounds(xs: seq<real>, lo: real, hi: real)
    requires forall i :: 0 <= i < |xs| ==> lo <= xs[i] <= hi
    ensures (|xs| as real) * lo <= Sum(xs) <= (|xs| as real) * hi
  {
    if xs != [] {
      var init := xs[..|xs| - 1];
      assert forall i :: 0 <= i < |init| ==> init[i] == xs[i];
      SumBounds(init, lo, hi);
      assert Sum(xs) == Sum(init) + xs[|xs| - 1];
      var n := |init| as real;
      assert |xs| as real == n + 1.0;
      MulSucc(n, lo);
      MulSucc(n, hi);
      assert (|xs| as real) * lo == n * lo + lo;
      assert (|xs| as real) * hi == n * hi + hi;
    }
  }

  lemma MulSucc(n: real, x: real)
    ensures (n + 1.0) * x == n * x + x
  {
  }

  lemma MulStrictMono(a: real, b: real, n: real)
    requires a < b && n > 0.0
    ensures a * n < b * n
  {
  }

  /** A positive count times a value bounded by `lo` and `hi` per term. */
  lemma BetweenByFactor(m: real, n: real, lo: real, hi: real, s: real)
    requires n > 0.0 && m * n == s && n * lo <= s <= n * hi
    ensures lo <= m <= hi
  {
    if m < lo {
      MulStrictMono(m, lo, n);
    }
    if hi < m {
      MulStrictMono(hi, m, n);
    }
  }

  /** A mean of terms between `lo` and `hi` is itself between them. */
  lemma MeanBounds(xs: seq<real>, lo: real, hi: real)
    requires xs != []
    requires forall i :: 0 <= i < |xs| ==> lo <= xs[i] <= hi
    ensures lo <= Mean(xs) <= hi
  {
    SumBounds(xs, lo, hi);
    BetweenByFactor(Mean(xs), |xs| as real, lo, hi, Sum(xs));
  }

  /** The mean of a non-empty list lies between its minimum and its maximum. */
  lemma MeanBetweenMinAndMax(xs: seq<real>)
    requires xs != []
    ensures SeqMin(xs) <= Mean(xs) <= SeqMax(xs)
  {
    MeanBounds(xs, SeqMin(xs), SeqMax(xs));
  }
}
