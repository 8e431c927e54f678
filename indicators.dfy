/**
 * The indicator engine: single left-to-right passes over a series that attach
 * rolling statistics to every bar under deterministic names (kind prefix plus
 * the decimal window size).
 *
 * Each `Add*` method updates the series in place and is proved to leave exactly
 * the state described by the matching `*Effect` function; the `*At` functions
 * give each bar's value directly from the source column (a window mean, a window
 * sum, ...), and the lemmas state what those values mean.
 */
module Indicators {
  import opened Numeric
  import opened Records
  import opened Series

  // ---------------------------------------------------------------------------
  // Indicator names

  function DigitChar(d: nat): char
    requires d < 10
  {
    (48 + d) as char
  }

  /** std::to_string of an unsigned integer: decimal digits, no leading zeros. */
  function NatToString(n: nat): (s: string)
    ensures |s| >= 1
    decreases n
  {
    if n < 10 then [DigitChar(n)] else NatToString(n / 10) + [DigitChar(n % 10)]
  }

  /** Distinct windows have distinct decimal names. */
  lemma {:induction false} NatToStringInjective(a: nat, b: nat)
    ensures NatToString(a) == NatToString(b) ==> a == b
    decreases a
  {
    if NatToString(a) == NatToString(b) && a >= 10 && b >= 10 {
      var s := NatToString(a);
      assert s[|s| - 1] == DigitChar(a % 10) == DigitChar(b % 10);
      assert NatToString(a / 10) == s[..|s| - 1] == NatToString(b / 10);
      NatToStringInjective(a / 10, b / 10);
    }
  }

  function SmaName(w: nat): string { "SMA_" + NatToString(w) }
  function RollMeanName(w: nat): string { "ROLL_MEAN_" + NatToString(w) }
  function RollStdName(w: nat): string { "ROLL_STD_" + NatToString(w) }
  function ZName(w: nat): string { "Z_" + NatToString(w) }
  function EmaName(w: nat): string { "EMA_" + NatToString(w) }
  function RollSumName(w: nat): string { "ROLL_SUM_" + NatToString(w) }
  function VolName(w: nat): string { "VOL_" + NatToString(w) }

  /** Equal names mean the same kind and the same window: the keys never collide. */
  lemma NamesAreKeys(a: nat, b: nat)
    ensures SmaName(a) == SmaName(b) ==> a == b
    ensures RollMeanName(a) == RollMeanName(b) ==> a == b
    ensures RollStdName(a) == RollStdName(b) ==> a == b
    ensures ZName(a) == ZName(b) ==> a == b
    ensures VolName(a) == VolName(b) ==> a == b
    ensures RollMeanName(a) != RollStdName(b)
    ensures ZName(a) != RollMeanName(b) && ZName(a) != RollStdName(b)
    ensures VolName(a) != RollStdName(b) && VolName(a) != RollMeanName(b)
    ensures SmaName(a) != ZName(b) && SmaName(a) != RollMeanName(b)
  {
    NatToStringInjective(a, b);
    var x, y := NatToString(a), NatToString(b);
    if SmaName(a) == SmaName(b) { assert x == SmaName(a)[4..] == SmaName(b)[4..] == y; }
    if RollMeanName(a) == RollMeanName(b) { assert x == RollMeanName(a)[10..] == RollMeanName(b)[10..] == y; }
    if RollStdName(a) == RollStdName(b) { assert x == RollStdName(a)[9..] == RollStdName(b)[9..] == y; }
    if ZName(a) == ZName(b) { assert x == ZName(a)[2..] == ZName(b)[2..] == y; }
    if VolName(a) == VolName(b) { assert x == VolName(a)[4..] == VolName(b)[4..] == y; }
    assert RollMeanName(a)[5] == 'M' && RollStdName(b)[5] == 'S';
    assert ZName(a)[0] == 'Z' && RollMeanName(b)[0] == 'R' && RollStdName(b)[0] == 'R';
    assert VolName(a)[0] == 'V' && SmaName(a)[0] == 'S';
  }

  // ---------------------------------------------------------------------------
  // Per-bar values, straight from the source column

  /** `SMA_w` (and `ROLL_MEAN_w`) at bar i: NaN before w values were seen, NaN once
      any NaN entered the running sum, otherwise the mean of the last w values. */
  function SmaAt(vs: seq<Num>, w: nat, i: nat): Num
    requires 0 < w && i < |vs|
  {
    if i + 1 < w then NaN
    else if !NaNFree(vs[..i + 1]) then NaN
    else Val(MeanOf(vs[i + 1 - w..i + 1]))
  }

  /** `ROLL_SUM_w` at bar i: the same window, without the division. */
  function RollSumAt(vs: seq<Num>, w: nat, i: nat): Num
    requires 0 < w && i < |vs|
  {
    if i + 1 < w then NaN
    else if !NaNFree(vs[..i + 1]) then NaN
    else Val(Total(vs[i + 1 - w..i + 1]))
  }

  /** `ROLL_STD_w` at bar i: sqrt of sumsq/w − mean², clamped at 0. A NaN in the
      running sums makes the variance NaN, which fails the `> 0` test, so the
      standard deviation is then 0.0 while the mean is NaN. */
  function RollStdAt(vs: seq<Num>, w: nat, i: nat, sqrt: real -> real): Num
    requires 0 < w && i < |vs|
  {
    if i + 1 < w then NaN
    else if !NaNFree(vs[..i + 1]) then Val(0.0)
    else
      var variance := NaiveVariance(vs[i + 1 - w..i + 1]);
      if variance > 0.0 then Val(sqrt(variance)) else Val(0.0)
  }

  /** `EMA_w` at bar i with smoothing factor alpha: seeded by the first value. */
  function EmaAt(vs: seq<Num>, alpha: real, i: nat): Num
    requires i < |vs|
    decreases i
  {
    if i == 0 then vs[0]
    else EmaStep(alpha, vs[i], EmaAt(vs, alpha, i - 1))
  }

  /** One step of the recurrence: alpha * v + (1 - alpha) * prev. */
  function EmaStep(alpha: real, v: Num, prev: Num): Num {
    Add(Mul(Val(alpha), v), Mul(Val(1.0 - alpha), prev))
  }

  function Alpha(w: nat): real {
    2.0 / (w as real + 1.0)
  }

  /** `Z_w` from a bar's value, rolling mean and rolling std. */
  function ZValue(val: Num, mean: Num, sd: Num): Num {
    if mean.Val? && sd.Val? && sd.v > Epsilon then Div(Sub(val, mean), sd.v) else NaN
  }

  // ---------------------------------------------------------------------------
  // Effects of the operations on a whole series

  /** The first n values of `SMA_w` (also `ROLL_MEAN_w`). */
  function SmaValues(vs: seq<Num>, w: nat, n: nat): (r: seq<Num>)
    requires 0 < w && n <= |vs|
    ensures |r| == n
  {
    if n == 0 then [] else SmaValues(vs, w, n - 1) + [SmaAt(vs, w, n - 1)]
  }

  function RollSumValues(vs: seq<Num>, w: nat, n: nat): (r: seq<Num>)
    requires 0 < w && n <= |vs|
    ensures |r| == n
  {
    if n == 0 then [] else RollSumValues(vs, w, n - 1) + [RollSumAt(vs, w, n - 1)]
  }

  function RollStdValues(vs: seq<Num>, w: nat, sqrt: real -> real, n: nat): (r: seq<Num>)
    requires 0 < w && n <= |vs|
    ensures |r| == n
  {
    if n == 0 then [] else RollStdValues(vs, w, sqrt, n - 1) + [RollStdAt(vs, w, n - 1, sqrt)]
  }

  function EmaValues(vs: seq<Num>, alpha: real, n: nat): (r: seq<Num>)
    requires n <= |vs|
    ensures |r| == n
  {
    if n == 0 then [] else EmaValues(vs, alpha, n - 1) + [EmaAt(vs, alpha, n - 1)]
  }

  lemma {:induction false} ValuesAt(vs: seq<Num>, w: nat, alpha: real, sqrt: real -> real, n: nat, k: nat)
    requires 0 < w && k < n <= |vs|
    ensures SmaValues(vs, w, n)[k] == SmaAt(vs, w, k)
    ensures RollSumValues(vs, w, n)[k] == RollSumAt(vs, w, k)
    ensures RollStdValues(vs, w, sqrt, n)[k] == RollStdAt(vs, w, k, sqrt)
    ensures EmaValues(vs, alpha, n)[k] == EmaAt(vs, alpha, k)
  {
    if k < n - 1 {
      ValuesAt(vs, w, alpha, sqrt, n - 1, k);
    }
  }

  /** One more bar extends each series by its value at that bar. */
  lemma SmaValuesStep(vs: seq<Num>, w: nat, i: nat, j: nat)
    requires 0 < w && j == i + 1 && j <= |vs|
    ensures SmaValues(vs, w, j) == SmaValues(vs, w, i) + [SmaAt(vs, w, i)]
  {
  }

  lemma RollSumValuesStep(vs: seq<Num>, w: nat, i: nat, j: nat)
    requires 0 < w && j == i + 1 && j <= |vs|
    ensures RollSumValues(vs, w, j) == RollSumValues(vs, w, i) + [RollSumAt(vs, w, i)]
  {
  }

  lemma RollStdValuesStep(vs: seq<Num>, w: nat, sqrt: real -> real, i: nat, j: nat)
    requires 0 < w && j == i + 1 && j <= |vs|
    ensures RollStdValues(vs, w, sqrt, j) == RollStdValues(vs, w, sqrt, i) + [RollStdAt(vs, w, i, sqrt)]
  {
  }

  /** The guard every `add_*` starts with: an empty series or window 0 is a no-op. */
  predicate Degenerate(rows: seq<Record>, w: nat) {
    |rows| == 0 || w == 0
  }

  function SmaEffect(rows: seq<Record>, w: nat, col: string): Effect {
    if Degenerate(rows, w) then Effect(rows, Success)
    else if !IsColumn(col) then Effect(rows, Failure(InvalidColumn(col)))
    else Effect(Annotate(rows, SmaName(w), SmaValues(ColumnValues(rows, col), w, |rows|)), Success)
  }

  function RollSumEffect(rows: seq<Record>, w: nat, col: string): Effect {
    if Degenerate(rows, w) then Effect(rows, Success)
    else if !IsColumn(col) then Effect(rows, Failure(InvalidColumn(col)))
    else Effect(Annotate(rows, RollSumName(w), RollSumValues(ColumnValues(rows, col), w, |rows|)), Success)
  }

  function RollMeanStdEffect(rows: seq<Record>, w: nat, col: string, sqrt: real -> real): Effect {
    if Degenerate(rows, w) then Effect(rows, Success)
    else if !IsColumn(col) then Effect(rows, Failure(InvalidColumn(col)))
    else
      var vs := ColumnValues(rows, col);
      Effect(Annotate(Annotate(rows, RollMeanName(w), SmaValues(vs, w, |rows|)), RollStdName(w), RollStdValues(vs, w, sqrt, |rows|)), Success)
  }

  function EmaEffect(rows: seq<Record>, w: nat, col: string): Effect {
    if Degenerate(rows, w) then Effect(rows, Success)
    else if !IsColumn(col) then Effect(rows, Failure(InvalidColumn(col)))
    else Effect(Annotate(rows, EmaName(w), EmaValues(ColumnValues(rows, col), Alpha(w), |rows|)), Success)
  }

  /** Z-score of one bar; reading the source column fails only on a bar that
      carries both rolling statistics. */
  function ZBar(r: Record, w: nat, col: string): Result<Num> {
    if RollMeanName(w) in r.indicators && RollStdName(w) in r.indicators then
      match GetColumnValue(r, col)
      case Err(e) => Err(e)
      case Ok(val) => Ok(ZValue(val, r.indicators[RollMeanName(w)], r.indicators[RollStdName(w)]))
    else Ok(NaN)
  }

  /** The z-score loop from bar i on: writes `Z_w` bar by bar, stops at a throw. */
  function ZFrom(rows: seq<Record>, w: nat, col: string, i: nat): Effect
    requires i <= |rows|
    decreases |rows| - i
  {
    if i == |rows| then Effect(rows, Success)
    else match ZBar(rows[i], w, col)
      case Err(e) => Effect(rows, Failure(e))
      case Ok(z) => ZFrom(rows[i := SetIndicator(rows[i], ZName(w), z)], w, col, i + 1)
  }

  function ZscoreEffect(rows: seq<Record>, w: nat, col: string, sqrt: real -> real): Effect {
    if Degenerate(rows, w) then Effect(rows, Success)
    else
      var pre := if RollMeanName(w) !in rows[0].indicators then RollMeanStdEffect(rows, w, col, sqrt)
                 else Effect(rows, Success);
      if pre.outcome.Failure? then pre else ZFrom(pre.rows, w, col, 0)
  }

  /** `VOL_w` of one bar: the stored rolling std times the annualization factor. */
  function VolValue(r: Record, w: nat, factor: Num): Num {
    if RollStdName(w) in r.indicators && r.indicators[RollStdName(w)].Val? then Mul(r.indicators[RollStdName(w)], factor)
    else NaN
  }

  /** `VOL_w` of the first n bars. */
  function VolValues(rows: seq<Record>, w: nat, factor: Num, n: nat): (r: seq<Num>)
    requires n <= |rows|
    ensures |r| == n
  {
    if n == 0 then [] else VolValues(rows, w, factor, n - 1) + [VolValue(rows[n - 1], w, factor)]
  }

  lemma {:induction false} VolValuesAt(rows: seq<Record>, w: nat, factor: Num, n: nat, k: nat)
    requires k < n <= |rows|
    ensures VolValues(rows, w, factor, n)[k] == VolValue(rows[k], w, factor)
  {
    if k < n - 1 {
      VolValuesAt(rows, w, factor, n - 1, k);
    }
  }

  function VolatilityEffect(rows: seq<Record>, w: nat, col: string, periodsPerYear: real, sqrt: real -> real): Effect {
    if Degenerate(rows, w) then Effect(rows, Success)
    else
      var pre := if RollStdName(w) !in rows[0].indicators then RollMeanStdEffect(rows, w, col, sqrt)
                 else Effect(rows, Success);
      if pre.outcome.Failure? then pre
      else Effect(Annotate(pre.rows, VolName(w), VolValues(pre.rows, w, SqrtNum(sqrt, periodsPerYear), |pre.rows|)), Success)
  }

  // ---------------------------------------------------------------------------
  // The bounded deque and its running sums

  /** `q` holds the last min(i, w) source values and `sum` is their total (NaN once
      a NaN value has been added). */
  ghost predicate WindowState(vs: seq<Num>, w: nat, i: nat, q: seq<Num>, sum: Num)
    requires i <= |vs|
  {
    && |q| == Min(i, w)
    && q == vs[i - Min(i, w)..i]
    && sum == (if NaNFree(vs[..i]) then Val(Total(q)) else NaN)
  }

  /** `sumsq` is the total of the squares of the values in `q`. */
  ghost predicate SquareState(vs: seq<Num>, i: nat, q: seq<Num>, sumsq: Num)
    requires i <= |vs|
  {
    sumsq == (if NaNFree(vs[..i]) then Val(TotalSq(q)) else NaN)
  }

  lemma NaNFreeExtend(vs: seq<Num>, i: nat)
    requires i < |vs|
    ensures NaNFree(vs[..i + 1]) <==> NaNFree(vs[..i]) && vs[i].Val?
  {
    assert vs[..i + 1] == vs[..i] + [vs[i]];
  }

  /** Pushing bar i's value and popping the front when the deque is over-full
      keeps the window invariant. */
  lemma WindowStep(vs: seq<Num>, w: nat, i: nat, j: nat, q: seq<Num>, sum: Num, q2: seq<Num>, sum2: Num)
    requires 0 < w && i < |vs| && j == i + 1
    requires WindowState(vs, w, i, q, sum)
    requires var q1 := q + [vs[i]];
             q2 == (if |q1| > w then q1[1..] else q1)
    requires var q1, s1 := q + [vs[i]], Add(sum, vs[i]);
             sum2 == (if |q1| > w then Sub(s1, q1[0]) else s1)
    ensures WindowState(vs, w, j, q2, sum2)
  {
    var q1 := q + [vs[i]];
    NaNFreeExtend(vs, i);
    TotalAppend(q, vs[i]);
    assert q1 == vs[i - Min(i, w)..i + 1];
    if |q1| > w {
      assert q2 == vs[i + 1 - w..i + 1];
      if NaNFree(vs[..i + 1]) {
        assert q1[0] == vs[i - Min(i, w)] == vs[..i + 1][i - Min(i, w)];
        assert q1[0].Val?;
        assert Total(q1) == Real(q1[0]) + Total(q1[1..]);
      }
    }
  }

  /** The same step for the running sum of squares. */
  lemma SquareStep(vs: seq<Num>, w: nat, i: nat, j: nat, q: seq<Num>, sum: Num, sumsq: Num, sumsq2: Num)
    requires 0 < w && i < |vs| && j == i + 1
    requires WindowState(vs, w, i, q, sum) && SquareState(vs, i, q, sumsq)
    requires var q1, s1 := q + [vs[i]], Add(sumsq, Mul(vs[i], vs[i]));
             sumsq2 == (if |q1| > w then Sub(s1, Mul(q1[0], q1[0])) else s1)
    ensures SquareState(vs, j, if |q| + 1 > w then (q + [vs[i]])[1..] else q + [vs[i]], sumsq2)
  {
    var q1 := q + [vs[i]];
    NaNFreeExtend(vs, i);
    TotalAppend(q, vs[i]);
    assert q1 == vs[i - Min(i, w)..i + 1];
    if |q1| > w && NaNFree(vs[..i + 1]) {
      assert q1[0] == vs[i - Min(i, w)] == vs[..i + 1][i - Min(i, w)];
      assert q1[0].Val?;
      assert TotalSq(q1) == Real(q1[0]) * Real(q1[0]) + TotalSq(q1[1..]);
    }
  }

  /** With the window invariant after bar i, the mean and the sum the loop stores
      are the specified ones. */
  lemma WindowValues(vs: seq<Num>, w: nat, i: nat, j: nat, q: seq<Num>, sum: Num)
    requires 0 < w && i < |vs| && j == i + 1
    requires WindowState(vs, w, j, q, sum)
    ensures (if |q| == w then Div(sum, w as real) else NaN) == SmaAt(vs, w, i)
    ensures (if |q| == w then sum else NaN) == RollSumAt(vs, w, i)
  {
    if |q| == w && NaNFree(vs[..i + 1]) {
      assert q == vs[i + 1 - w..i + 1];
      assert Div(sum, w as real) == Val(MeanOf(q));
    }
  }

  /** ... and so is the standard deviation. */
  lemma WindowStd(vs: seq<Num>, w: nat, i: nat, j: nat, q: seq<Num>, sum: Num, sumsq: Num, sqrt: real -> real)
    requires 0 < w && i < |vs| && j == i + 1
    requires WindowState(vs, w, j, q, sum) && SquareState(vs, j, q, sumsq)
    ensures (if |q| == w then
               var mean := Div(sum, w as real);
               var variance := Sub(Div(sumsq, w as real), Mul(mean, mean));
               if variance.Val? && variance.v > 0.0 then SqrtNum(sqrt, variance.v) else Val(0.0)
             else NaN) == RollStdAt(vs, w, i, sqrt)
  {
    if |q| == w && NaNFree(vs[..i + 1]) {
      assert q == vs[i + 1 - w..i + 1];
      assert Div(sum, w as real) == Val(MeanOf(q));
      assert Div(sumsq, w as real) == Val(TotalSq(q) / w as real);
      assert Sub(Div(sumsq, w as real), Mul(Val(MeanOf(q)), Val(MeanOf(q)))) == Val(NaiveVariance(q));
    }
  }

  /** Before the first bar and after the last, the two nested prefixes are the
      untouched series and the two annotations. */
  lemma BothStart(rows: seq<Record>, name1: string, name2: string)
    ensures AnnotatePrefix(AnnotatePrefix(rows, name1, []), name2, []) == rows
  {
    forall r: seq<Record>, name: string ensures AnnotatePrefix(r, name, []) == r {
      assert r[..0] == [] && r[0..] == r;
    }
  }

  lemma BothEnd(rows: seq<Record>, name1: string, name2: string, means: seq<Num>, sds: seq<Num>)
    requires |means| == |sds| == |rows|
    ensures AnnotatePrefix(AnnotatePrefix(rows, name1, means), name2, sds) == Annotate(Annotate(rows, name1, means), name2, sds)
  {
    AnnotatePrefixEnds(rows, name1, means);
    AnnotatePrefixEnds(Annotate(rows, name1, means), name2, sds);
  }

  /** Bar |means| is not yet written by either pass. */
  lemma BothUntouched(rows: seq<Record>, name1: string, name2: string, means: seq<Num>, sds: seq<Num>)
    requires |means| == |sds| < |rows|
    ensures AnnotatePrefix(AnnotatePrefix(rows, name1, means), name2, sds)[|means|] == rows[|means|]
  {
    AnnotatePrefixStep(rows, name1, means, NaN);
    AnnotatePrefixStep(AnnotatePrefix(rows, name1, means), name2, sds, NaN);
  }

  /** Writing two keys into bar |means| extends both annotated prefixes by one bar. */
  lemma StoreBoth(rows: seq<Record>, name1: string, name2: string, means: seq<Num>, sds: seq<Num>, m: Num, s: Num)
    requires |means| == |sds| < |rows|
    ensures var cur := AnnotatePrefix(AnnotatePrefix(rows, name1, means), name2, sds);
            var i := |means|;
            && cur[i] == rows[i]
            && cur[i := SetIndicator(SetIndicator(cur[i], name1, m), name2, s)]
               == AnnotatePrefix(AnnotatePrefix(rows, name1, means + [m]), name2, sds + [s])
  {
    var i := |means|;
    var before, after := AnnotatePrefix(rows, name1, means), AnnotatePrefix(rows, name1, means + [m]);
    AnnotatePrefixStep(rows, name1, means, m);
    AnnotatePrefixStep(before, name2, sds, s);
    AnnotatePrefixStep(after, name2, sds, s);
    AnnotatePrefixFrame(before, name2, sds, SetIndicator(rows[i], name1, m));
    var written := AnnotatePrefix(before, name2, sds);
    assert written[i := SetIndicator(rows[i], name1, m)][i := SetIndicator(SetIndicator(rows[i], name1, m), name2, s)]
        == written[i := SetIndicator(SetIndicator(rows[i], name1, m), name2, s)];
  }

  // ---------------------------------------------------------------------------
  // The operations

  method AddSma(ts: TimeSeries, window: nat, col: string) returns (outcome: Outcome)
    modifies ts
    ensures Effect(ts.rows, outcome) == SmaEffect(old(ts.rows), window, col)
  {
    if ts.Size() == 0 || window == 0 {
      return Success;
    }
    ghost var rows0 := ts.rows;
    ghost var vs := ColumnReads(rows0, col);
    var n := ts.Size();
    var q: seq<Num> := [];
    var sum := Val(0.0);
    var name := SmaName(window);
    ghost var vals: seq<Num> := [];
    var i := 0;
    while i < n
      invariant 0 <= i <= n && |vals| == i
      invariant i > 0 ==> IsColumn(col)
      invariant vals == SmaValues(vs, window, i)
      invariant ts.rows == AnnotatePrefix(rows0, name, vals)
      invariant i == 0 ==> ts.rows == rows0
      invariant WindowState(vs, window, i, q, sum)
    {
      AnnotatePrefixStep(rows0, name, vals, NaN);
      var got := GetColumnValue(ts.rows[i], col);
      if got.Err? {
        return Failure(got.error);
      }
      var val := got.value;
      ghost var q0, sum0 := q, sum;
      q := q + [val];
      sum := Add(sum, val);
      if |q| > window {
        sum := Sub(sum, q[0]);
        q := q[1..];
      }
      var x := if |q| == window then Div(sum, window as real) else NaN;
      AnnotatePrefixStep(rows0, name, vals, x);
      ts.rows := ts.rows[i := SetIndicator(ts.rows[i], name, x)];
      vals := vals + [x];
      ghost var i0 := i;
      i := i + 1;
      WindowStep(vs, window, i0, i, q0, sum0, q, sum);
      WindowValues(vs, window, i0, i, q, sum);
      SmaValuesStep(vs, window, i0, i);
    }
    ColumnReadsAreColumn(rows0, col, vs);
    AnnotatePrefixEnds(rows0, name, vals);
    return Success;
  }

  /** One step of the deque with both running sums: push `v`, and pop the front
      once more than `window` values are held. */
  /** Bar i of the rolling mean and standard deviation pass, without the write:
      slide the window, then derive the mean and the clamped deviation from the
      running sums. */
  method MeanStdStep(ghost vs: seq<Num>, window: nat, ghost i: nat, ghost j: nat,
                     q: seq<Num>, sum: Num, sumsq: Num, v: Num, sqrt: real -> real)
    returns (q2: seq<Num>, sum2: Num, sumsq2: Num, mean: Num, sd: Num)
    requires 0 < window && i < |vs| && j == i + 1 && v == vs[i]
    requires WindowState(vs, window, i, q, sum) && SquareState(vs, i, q, sumsq)
    ensures WindowState(vs, window, j, q2, sum2) && SquareState(vs, j, q2, sumsq2)
    ensures mean == SmaAt(vs, window, i) && sd == RollStdAt(vs, window, i, sqrt)
  {
    q2, sum2, sumsq2 := PushSquares(vs, window, i, j, q, sum, sumsq, v);
    if |q2| == window {
      mean := Div(sum2, window as real);
      var variance := Sub(Div(sumsq2, window as real), Mul(mean, mean));
      sd := if variance.Val? && variance.v > 0.0 then SqrtNum(sqrt, variance.v) else Val(0.0);
    } else {
      mean, sd := NaN, NaN;
    }
    WindowValues(vs, window, i, j, q2, sum2);
    WindowStd(vs, window, i, j, q2, sum2, sumsq2, sqrt);
  }

  method PushSquares(ghost vs: seq<Num>, window: nat, ghost i: nat, ghost j: nat,
                     q: seq<Num>, sum: Num, sumsq: Num, v: Num) returns (q2: seq<Num>, sum2: Num, sumsq2: Num)
    requires 0 < window && i < |vs| && j == i + 1 && v == vs[i]
    requires WindowState(vs, window, i, q, sum) && SquareState(vs, i, q, sumsq)
    ensures WindowState(vs, window, j, q2, sum2) && SquareState(vs, j, q2, sumsq2)
  {
    q2 := q + [v];
    sum2 := Add(sum, v);
    sumsq2 := Add(sumsq, Mul(v, v));
    if |q2| > window {
      var front := q2[0];
      q2 := q2[1..];
      sum2 := Sub(sum2, front);
      sumsq2 := Sub(sumsq2, Mul(front, front));
    }
    WindowStep(vs, window, i, j, q, sum, q2, sum2);
    SquareStep(vs, window, i, j, q, sum, sumsq, sumsq2);
  }

  /** `ts[i].indicators[name1] = m; ts[i].indicators[name2] = s` on a series whose
      first i bars carry both keys already. */
  method WriteBoth(ts: TimeSeries, i: nat, name1: string, name2: string, m: Num, s: Num,
                   ghost rows: seq<Record>, ghost means: seq<Num>, ghost sds: seq<Num>)
    modifies ts
    requires |means| == |sds| == i < |rows|
    requires ts.rows == AnnotatePrefix(AnnotatePrefix(rows, name1, means), name2, sds)
    ensures ts.rows == AnnotatePrefix(AnnotatePrefix(rows, name1, means + [m]), name2, sds + [s])
  {
    StoreBoth(rows, name1, name2, means, sds, m, s);
    ts.rows := ts.rows[i := SetIndicator(SetIndicator(ts.rows[i], name1, m), name2, s)];
  }

  method AddRollMeanStd(ts: TimeSeries, window: nat, col: string, sqrt: real -> real) returns (outcome: Outcome)
    modifies ts
    ensures Effect(ts.rows, outcome) == RollMeanStdEffect(old(ts.rows), window, col, sqrt)
  {
    if ts.Size() == 0 || window == 0 {
      return Success;
    }
    ghost var rows0 := ts.rows;
    ghost var vs := ColumnReads(rows0, col);
    var n := ts.Size();
    var q: seq<Num> := [];
    var sum := Val(0.0);
    var sumsq := Val(0.0);
    var meanName := RollMeanName(window);
    var stdName := RollStdName(window);
    ghost var means: seq<Num> := [];
    ghost var sds: seq<Num> := [];
    BothStart(rows0, meanName, stdName);
    var i := 0;
    while i < n
      invariant 0 <= i <= n && |means| == i && |sds| == i
      invariant i > 0 ==> IsColumn(col)
      invariant means == SmaValues(vs, window, i) && sds == RollStdValues(vs, window, sqrt, i)
      invariant ts.rows == AnnotatePrefix(AnnotatePrefix(rows0, meanName, means), stdName, sds)
      invariant i == 0 ==> ts.rows == rows0
      invariant WindowState(vs, window, i, q, sum) && SquareState(vs, i, q, sumsq)
    {
      BothUntouched(rows0, meanName, stdName, means, sds);
      var got := GetColumnValue(ts.rows[i], col);
      if got.Err? {
        return Failure(got.error);
      }
      var v := got.value;
      ghost var j := i + 1;
      var mean, sd;
      q, sum, sumsq, mean, sd := MeanStdStep(vs, window, i, j, q, sum, sumsq, v, sqrt);
      WriteBoth(ts, i, meanName, stdName, mean, sd, rows0, means, sds);
      means, sds := means + [mean], sds + [sd];
      ghost var i0 := i;
      i := i + 1;
      assert i == j;
      SmaValuesStep(vs, window, i0, j);
      RollStdValuesStep(vs, window, sqrt, i0, j);
    }
    ColumnReadsAreColumn(rows0, col, vs);
    BothEnd(rows0, meanName, stdName, means, sds);
    return Success;
  }

  method AddZscore(ts: TimeSeries, window: nat, col: string, sqrt: real -> real) returns (outcome: Outcome)
    modifies ts
    ensures Effect(ts.rows, outcome) == ZscoreEffect(old(ts.rows), window, col, sqrt)
  {
    if ts.Size() == 0 || window == 0 {
      return Success;
    }
    var meanName := RollMeanName(window);
    var stdName := RollStdName(window);
    if meanName !in ts.rows[0].indicators {
      outcome := AddRollMeanStd(ts, window, col, sqrt);
      if outcome.Failure? {
        return;
      }
    }
    outcome := ZscoreLoop(ts, window, col);
  }

  /** The z-score loop of add_zscore over the series as it stands. */
  method ZscoreLoop(ts: TimeSeries, window: nat, col: string) returns (outcome: Outcome)
    modifies ts
    ensures Effect(ts.rows, outcome) == ZFrom(old(ts.rows), window, col, 0)
  {
    ghost var rows1 := ts.rows;
    var zName := ZName(window);
    var i := 0;
    while i < |ts.rows|
      invariant 0 <= i <= |ts.rows| == |rows1|
      invariant ZFrom(ts.rows, window, col, i) == ZFrom(rows1, window, col, 0)
      decreases |ts.rows| - i
    {
      var r := ts.rows[i];
      var zb := ZscoreBar(r, window, col);
      if zb.Err? {
        return Failure(zb.error);
      }
      ts.rows := ts.rows[i := SetIndicator(r, zName, zb.value)];
      i := i + 1;
    }
    return Success;
  }

  /** One bar of the z-score loop: its z value, or the error of reading an unknown column. */
  method ZscoreBar(r: Record, window: nat, col: string) returns (res: Result<Num>)
    ensures res == ZBar(r, window, col)
  {
    var meanName := RollMeanName(window);
    var stdName := RollStdName(window);
    if meanName in r.indicators && stdName in r.indicators {
      var mean := r.indicators[meanName];
      var sd := r.indicators[stdName];
      var got := GetColumnValue(r, col);
      if got.Err? {
        return Err(got.error);
      }
      var val := got.value;
      var z := if mean.Val? && sd.Val? && sd.v > Epsilon then Div(Sub(val, mean), sd.v) else NaN;
      return Ok(z);
    }
    return Ok(NaN);
  }

  method AddEma(ts: TimeSeries, window: nat, col: string) returns (outcome: Outcome)
    modifies ts
    ensures Effect(ts.rows, outcome) == EmaEffect(old(ts.rows), window, col)
  {
    if ts.Size() == 0 || window == 0 {
      return Success;
    }
    ghost var rows0 := ts.rows;
    ghost var vs := ColumnReads(rows0, col);
    var alpha := 2.0 / (window as real + 1.0);
    var name := EmaName(window);
    var ema := Val(0.0);
    var initialized := false;
    var n := ts.Size();
    AnnotatePrefixEnds(rows0, name, EmaValues(vs, alpha, n));
    var i := 0;
    while i < n
      invariant 0 <= i <= n
      invariant i > 0 ==> IsColumn(col)
      invariant initialized <==> i > 0
      invariant ts.rows == AnnotatePrefix(rows0, name, EmaValues(vs, alpha, i))
      invariant i > 0 ==> ema == EmaAt(vs, alpha, i - 1)
    {
      AnnotatePrefixStep(rows0, name, EmaValues(vs, alpha, i), EmaAt(vs, alpha, i));
      var got := GetColumnValue(ts.rows[i], col);
      if got.Err? {
        return Failure(got.error);
      }
      var val := got.value;
      if !initialized {
        ema := val;
        initialized := true;
      } else {
        ema := EmaStep(alpha, val, ema);
      }
      ts.rows := ts.rows[i := SetIndicator(ts.rows[i], name, ema)];
      i := i + 1;
    }
    ColumnReadsAreColumn(rows0, col, vs);
    return Success;
  }

  method AddRollSum(ts: TimeSeries, window: nat, col: string) returns (outcome: Outcome)
    modifies ts
    ensures Effect(ts.rows, outcome) == RollSumEffect(old(ts.rows), window, col)
  {
    if ts.Size() == 0 || window == 0 {
      return Success;
    }
    ghost var rows0 := ts.rows;
    ghost var vs := ColumnReads(rows0, col);
    var n := ts.Size();
    var q: seq<Num> := [];
    var sum := Val(0.0);
    var name := RollSumName(window);
    ghost var vals: seq<Num> := [];
    var i := 0;
    while i < n
      invariant 0 <= i <= n && |vals| == i
      invariant i > 0 ==> IsColumn(col)
      invariant vals == RollSumValues(vs, window, i)
      invariant ts.rows == AnnotatePrefix(rows0, name, vals)
      invariant i == 0 ==> ts.rows == rows0
      invariant WindowState(vs, window, i, q, sum)
    {
      AnnotatePrefixStep(rows0, name, vals, NaN);
      var got := GetColumnValue(ts.rows[i], col);
      if got.Err? {
        return Failure(got.error);
      }
      var val := got.value;
      ghost var q0, sum0 := q, sum;
      q := q + [val];
      sum := Add(sum, val);
      if |q| > window {
        sum := Sub(sum, q[0]);
        q := q[1..];
      }
      var x := if |q| == window then sum else NaN;
      AnnotatePrefixStep(rows0, name, vals, x);
      ts.rows := ts.rows[i := SetIndicator(ts.rows[i], name, x)];
      vals := vals + [x];
      ghost var i0 := i;
      i := i + 1;
      WindowStep(vs, window, i0, i, q0, sum0, q, sum);
      WindowValues(vs, window, i0, i, q, sum);
      RollSumValuesStep(vs, window, i0, i);
    }
    ColumnReadsAreColumn(rows0, col, vs);
    AnnotatePrefixEnds(rows0, name, vals);
    return Success;
  }

  method AddVolatility(ts: TimeSeries, window: nat, col: string, periodsPerYear: real, sqrt: real -> real)
    returns (outcome: Outcome)
    modifies ts
    ensures Effect(ts.rows, outcome) == VolatilityEffect(old(ts.rows), window, col, periodsPerYear, sqrt)
  {
    if ts.Size() == 0 || window == 0 {
      return Success;
    }
    var stdName := RollStdName(window);
    if stdName !in ts.rows[0].indicators {
      outcome := AddRollMeanStd(ts, window, col, sqrt);
      if outcome.Failure? {
        return;
      }
    }
    ghost var rows1 := ts.rows;
    var volName := VolName(window);
    var factor := SqrtNum(sqrt, periodsPerYear);
    AnnotatePrefixEnds(rows1, volName, VolValues(rows1, window, factor, |rows1|));
    var i := 0;
    while i < |ts.rows|
      invariant 0 <= i <= |ts.rows| == |rows1|
      invariant ts.rows == AnnotatePrefix(rows1, volName, VolValues(rows1, window, factor, i))
    {
      AnnotatePrefixStep(rows1, volName, VolValues(rows1, window, factor, i), VolValue(rows1[i], window, factor));
      var r := ts.rows[i];
      var x;
      if stdName in r.indicators {
        var sd := r.indicators[stdName];
        if sd.Val? {
          x := Mul(sd, factor);
        } else {
          x := NaN;
        }
      } else {
        x := NaN;
      }
      ts.rows := ts.rows[i := SetIndicator(r, volName, x)];
      i := i + 1;
    }
    return Success;
  }
}
