/**
 * Double-precision values as the series engine sees them: a real number or the
 * IEEE not-a-number marker. Arithmetic propagates NaN the way IEEE 754 does and
 * every ordered comparison with NaN is false. Rounding and infinities are not
 * modelled.
 */
module Numeric {

  datatype Num = NaN | Val(v: real)

  /** The guard used against near-zero divisors, 1e-10. */
  const Epsilon: real := 0.0000000001

  function Add(a: Num, b: Num): Num {
    if a.Val? && b.Val? then Val(a.v + b.v) else NaN
  }

  function Sub(a: Num, b: Num): Num {
    if a.Val? && b.Val? then Val(a.v - b.v) else NaN
  }

  function Mul(a: Num, b: Num): Num {
    if a.Val? && b.Val? then Val(a.v * b.v) else NaN
  }

  function Div(a: Num, d: real): Num
    requires d != 0.0
  {
    if a.Val? then Val(a.v / d) else NaN
  }

  /** The real part of a value, 0 for NaN; only used where NaN is excluded. */
  function Real(a: Num): real {
    if a.Val? then a.v else 0.0
  }

  /** std::sqrt on a double: NaN for a negative argument. */
  function SqrtNum(sqrt: real -> real, x: real): Num {
    if x < 0.0 then NaN else Val(sqrt(x))
  }

  /** What the model needs of the square root it is given. */
  ghost predicate IsSqrt(sqrt: real -> real) {
    && sqrt(0.0) == 0.0
    && forall x: real :: 0.0 <= x ==> 0.0 <= sqrt(x)
  }

  function Min(a: nat, b: nat): nat {
    if a <= b then a else b
  }

  /** No element of `s` is NaN. */
  predicate NaNFree(s: seq<Num>) {
    forall k :: 0 <= k < |s| ==> s[k].Val?
  }

  /** Sum of the elements of `s` (NaN counted as 0; used only on NaN-free sequences). */
  function Total(s: seq<Num>): real {
    if s == [] then 0.0 else Real(s[0]) + Total(s[1..])
  }

  /** Sum of the squares of the elements of `s`. */
  function TotalSq(s: seq<Num>): real {
    if s == [] then 0.0 else Real(s[0]) * Real(s[0]) + TotalSq(s[1..])
  }

  /** Sum of squared deviations of the elements of `s` from `m`. */
  function Deviation(s: seq<Num>, m: real): real {
    if s == [] then 0.0 else (Real(s[0]) - m) * (Real(s[0]) - m) + Deviation(s[1..], m)
  }

  /** Arithmetic mean of a non-empty sequence. */
  function MeanOf(s: seq<Num>): real
    requires |s| > 0
  {
    Total(s) / |s| as real
  }

  /** The running-sums variance formula: mean of the squares minus the squared mean. */
  function NaiveVariance(s: seq<Num>): real
    requires |s| > 0
  {
    TotalSq(s) / |s| as real - MeanOf(s) * MeanOf(s)
  }

  /** Population variance: mean squared deviation from the mean. */
  function PopVariance(s: seq<Num>): real
    requires |s| > 0
  {
    Deviation(s, Total(s) / |s| as real) / |s| as real
  }

  lemma {:induction false} TotalAppend(s: seq<Num>, x: Num)
    ensures Total(s + [x]) == Total(s) + Real(x)
    ensures TotalSq(s + [x]) == TotalSq(s) + Real(x) * Real(x)
  {
    if s != [] {
      assert (s + [x])[1..] == s[1..] + [x];
      TotalAppend(s[1..], x);
    }
  }

  /** A deviation sum expands to Σx² − 2mΣx + |s|·m². */
  lemma {:induction false} DeviationExpand(s: seq<Num>, m: real)
    ensures Deviation(s, m) == TotalSq(s) - 2.0 * m * Total(s) + (|s| as real) * m * m
  {
    if s != [] {
      DeviationExpand(s[1..], m);
      var x := Real(s[0]);
      calc {
        Deviation(s, m);
        (x - m) * (x - m) + Deviation(s[1..], m);
        (x - m) * (x - m) + TotalSq(s[1..]) - 2.0 * m * Total(s[1..]) + ((|s| - 1) as real) * m * m;
        { assert (x - m) * (x - m) == x * x - 2.0 * m * x + m * m; }
        x * x + TotalSq(s[1..]) - 2.0 * m * (x + Total(s[1..])) + (|s| as real) * m * m;
      }
    }
  }

  /** Real-arithmetic core of the variance identity, stated on plain reals. */
  lemma VarianceAlgebra(t: real, q: real, n: real, d: real)
    requires n > 0.0
    requires d == q - 2.0 * (t / n) * t + n * (t / n) * (t / n)
    ensures d / n == q / n - (t / n) * (t / n)
  {
    var m := t / n;
    assert t == m * n;
    assert d == q - n * m * m;
    assert d / n == q / n - (n * m * m) / n;
    assert (n * m * m) / n == m * m;
  }

  /** The running-sums formula sumsq/n − mean² is exactly the population variance over reals. */
  lemma NaiveVarianceIsPopulationVariance(s: seq<Num>)
    requires |s| > 0
    ensures NaiveVariance(s) == PopVariance(s)
  {
    var n, t, q := |s| as real, Total(s), TotalSq(s);
    var d := Deviation(s, t / n);
    assert d == q - 2.0 * (t / n) * t + n * (t / n) * (t / n) by {
      DeviationExpand(s, t / n);
    }
    VarianceAlgebra(t, q, n, d);
    assert NaiveVariance(s) == q / n - (t / n) * (t / n) by {
      assert MeanOf(s) == t / n;
    }
  }

  lemma {:induction false} DeviationNonNegative(s: seq<Num>, m: real)
    ensures Deviation(s, m) >= 0.0
  {
    if s != [] {
      DeviationNonNegative(s[1..], m);
      var d := Real(s[0]) - m;
      assert d * d >= 0.0;
    }
  }

  /** A sequence whose every element is the value c. */
  ghost predicate Constant(s: seq<Num>, c: real) {
    forall k :: 0 <= k < |s| ==> s[k] == Val(c)
  }

  lemma {:induction false} ConstantTotals(s: seq<Num>, c: real)
    requires Constant(s, c)
    ensures Total(s) == (|s| as real) * c
    ensures Deviation(s, c) == 0.0
  {
    if s != [] {
      ConstantTotals(s[1..], c);
    }
  }

  /** The population variance is never negative, and is zero for a constant sequence. */
  lemma PopVarianceFacts(s: seq<Num>)
    requires |s| > 0
    ensures PopVariance(s) >= 0.0
    ensures forall c :: Constant(s, c) ==> PopVariance(s) == 0.0
  {
    DeviationNonNegative(s, Total(s) / |s| as real);
    forall c | Constant(s, c) ensures PopVariance(s) == 0.0 {
      ConstantTotals(s, c);
      assert Total(s) / |s| as real == c;
    }
  }

  /** Bounds on every element bound the total. */
  lemma {:induction false} TotalBounds(s: seq<Num>, lo: real, hi: real)
    requires forall k :: 0 <= k < |s| ==> lo <= Real(s[k]) <= hi
    ensures (|s| as real) * lo <= Total(s) <= (|s| as real) * hi
  {
    if s != [] {
      assert forall k :: 0 <= k < |s[1..]| ==> s[1..][k] == s[k + 1];
      TotalBounds(s[1..], lo, hi);
    }
  }

  lemma MeanBounds(t: real, n: real, lo: real, hi: real)
    requires n > 0.0 && n * lo <= t <= n * hi
    ensures lo <= t / n <= hi
  {
    assert t / n * n == t;
    assert (t / n - lo) * n >= 0.0;
    assert (hi - t / n) * n >= 0.0;
  }
}
