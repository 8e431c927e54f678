/**
 * What the indicator values mean and how the passes relate to each other: the
 * degenerate-input no-ops, the keys each pass writes, the warm-up and window
 * formulas of every bar, the variance identity behind the rolling standard
 * deviation, the EMA recurrence, the z-score and volatility passes with their
 * lazy first step, and idempotence.
 */
module IndicatorFacts {
  import opened Numeric
  import opened Records
  import opened Indicators

  // ---------------------------------------------------------------------------
  // Degenerate inputs and frames

  /** An empty series or window 0 leaves the series untouched, whatever the column. */
  lemma NoOpOnDegenerate(rows: seq<Record>, w: nat, col: string, sqrt: real -> real, periodsPerYear: real)
    requires Degenerate(rows, w)
    ensures SmaEffect(rows, w, col) == Effect(rows, Success)
    ensures RollSumEffect(rows, w, col) == Effect(rows, Success)
    ensures RollMeanStdEffect(rows, w, col, sqrt) == Effect(rows, Success)
    ensures EmaEffect(rows, w, col) == Effect(rows, Success)
    ensures ZscoreEffect(rows, w, col, sqrt) == Effect(rows, Success)
    ensures VolatilityEffect(rows, w, col, periodsPerYear, sqrt) == Effect(rows, Success)
  {
  }

  /** An unknown column on a non-empty series with a positive window fails before any write. */
  lemma InvalidColumnFails(rows: seq<Record>, w: nat, col: string, sqrt: real -> real)
    requires !Degenerate(rows, w) && !IsColumn(col)
    ensures SmaEffect(rows, w, col) == Effect(rows, Failure(InvalidColumn(col)))
    ensures RollSumEffect(rows, w, col) == Effect(rows, Failure(InvalidColumn(col)))
    ensures RollMeanStdEffect(rows, w, col, sqrt) == Effect(rows, Failure(InvalidColumn(col)))
    ensures EmaEffect(rows, w, col) == Effect(rows, Failure(InvalidColumn(col)))
  {
  }

  /** Each single-key pass writes its own key and nothing else. */
  lemma SingleKeyFrames(rows: seq<Record>, w: nat, col: string)
    ensures OnlyWrites(rows, SmaEffect(rows, w, col).rows, {SmaName(w)}, false)
    ensures OnlyWrites(rows, RollSumEffect(rows, w, col).rows, {RollSumName(w)}, false)
    ensures OnlyWrites(rows, EmaEffect(rows, w, col).rows, {EmaName(w)}, false)
  {
    SmaFrame(rows, w, col);
    RollSumFrame(rows, w, col);
    EmaFrame(rows, w, col);
  }

  lemma SmaFrame(rows: seq<Record>, w: nat, col: string)
    ensures OnlyWrites(rows, SmaEffect(rows, w, col).rows, {SmaName(w)}, false)
  {
    if !Degenerate(rows, w) && IsColumn(col) {
      AnnotateOnlyWrites(rows, SmaName(w), SmaValues(ColumnValues(rows, col), w, |rows|));
    }
  }

  lemma RollSumFrame(rows: seq<Record>, w: nat, col: string)
    ensures OnlyWrites(rows, RollSumEffect(rows, w, col).rows, {RollSumName(w)}, false)
  {
    if !Degenerate(rows, w) && IsColumn(col) {
      AnnotateOnlyWrites(rows, RollSumName(w), RollSumValues(ColumnValues(rows, col), w, |rows|));
    }
  }

  lemma EmaFrame(rows: seq<Record>, w: nat, col: string)
    ensures OnlyWrites(rows, EmaEffect(rows, w, col).rows, {EmaName(w)}, false)
  {
    if !Degenerate(rows, w) && IsColumn(col) {
      AnnotateOnlyWrites(rows, EmaName(w), EmaValues(ColumnValues(rows, col), Alpha(w), |rows|));
    }
  }

  /** The mean/std pass writes its two keys and nothing else. */
  lemma RollMeanStdFrame(rows: seq<Record>, w: nat, col: string, sqrt: real -> real)
    ensures OnlyWrites(rows, RollMeanStdEffect(rows, w, col, sqrt).rows, {RollMeanName(w), RollStdName(w)}, false)
  {
    if !Degenerate(rows, w) && IsColumn(col) {
      var vs := ColumnValues(rows, col);
      var mid := Annotate(rows, RollMeanName(w), SmaValues(vs, w, |rows|));
      AnnotateOnlyWrites(rows, RollMeanName(w), SmaValues(vs, w, |rows|));
      AnnotateOnlyWrites(mid, RollStdName(w), RollStdValues(vs, w, sqrt, |rows|));
      OnlyWritesTrans(rows, mid, RollMeanStdEffect(rows, w, col, sqrt).rows, {RollMeanName(w)}, {RollStdName(w)}, false, false);
    }
  }

  // ---------------------------------------------------------------------------
  // The windowed passes, bar by bar

  /** On a valid column the pass succeeds and bar k holds the k-th series value. */
  lemma WindowedBars(rows: seq<Record>, w: nat, col: string, sqrt: real -> real, k: nat)
    requires !Degenerate(rows, w) && IsColumn(col) && k < |rows|
    ensures var vs := ColumnValues(rows, col);
            && SmaEffect(rows, w, col).outcome == Success
            && Reading(SmaEffect(rows, w, col).rows[k], SmaName(w)) == SmaAt(vs, w, k)
            && RollSumEffect(rows, w, col).outcome == Success
            && Reading(RollSumEffect(rows, w, col).rows[k], RollSumName(w)) == RollSumAt(vs, w, k)
            && RollMeanStdEffect(rows, w, col, sqrt).outcome == Success
            && Reading(RollMeanStdEffect(rows, w, col, sqrt).rows[k], RollMeanName(w)) == SmaAt(vs, w, k)
            && Reading(RollMeanStdEffect(rows, w, col, sqrt).rows[k], RollStdName(w)) == RollStdAt(vs, w, k, sqrt)
  {
    SmaBar(rows, w, col, k);
    RollSumBar(rows, w, col, k);
    MeanStdBar(rows, w, col, sqrt, k);
  }

  lemma SmaBar(rows: seq<Record>, w: nat, col: string, k: nat)
    requires !Degenerate(rows, w) && IsColumn(col) && k < |rows|
    ensures SmaEffect(rows, w, col).outcome == Success
    ensures Reading(SmaEffect(rows, w, col).rows[k], SmaName(w)) == SmaAt(ColumnValues(rows, col), w, k)
  {
    var vs := ColumnValues(rows, col);
    ValuesAt(vs, w, 0.0, x => x, |rows|, k);
    AnnotateAt(rows, SmaName(w), SmaValues(vs, w, |rows|), k);
  }

  lemma RollSumBar(rows: seq<Record>, w: nat, col: string, k: nat)
    requires !Degenerate(rows, w) && IsColumn(col) && k < |rows|
    ensures RollSumEffect(rows, w, col).outcome == Success
    ensures Reading(RollSumEffect(rows, w, col).rows[k], RollSumName(w)) == RollSumAt(ColumnValues(rows, col), w, k)
  {
    var vs := ColumnValues(rows, col);
    ValuesAt(vs, w, 0.0, x => x, |rows|, k);
    AnnotateAt(rows, RollSumName(w), RollSumValues(vs, w, |rows|), k);
  }

  lemma MeanStdBar(rows: seq<Record>, w: nat, col: string, sqrt: real -> real, k: nat)
    requires !Degenerate(rows, w) && IsColumn(col) && k < |rows|
    ensures var vs := ColumnValues(rows, col);
            var e := RollMeanStdEffect(rows, w, col, sqrt);
            && e.outcome == Success
            && Reading(e.rows[k], RollMeanName(w)) == SmaAt(vs, w, k)
            && Reading(e.rows[k], RollStdName(w)) == RollStdAt(vs, w, k, sqrt)
  {
    var vs := ColumnValues(rows, col);
    var n := |rows|;
    ValuesAt(vs, w, 0.0, sqrt, n, k);
    var mid := Annotate(rows, RollMeanName(w), SmaValues(vs, w, n));
    AnnotateAt(rows, RollMeanName(w), SmaValues(vs, w, n), k);
    AnnotateAt(mid, RollStdName(w), RollStdValues(vs, w, sqrt, n), k);
    NamesAreKeys(w, w);
  }

  /** Before w values were seen every windowed key is NaN. */
  lemma WarmUp(vs: seq<Num>, w: nat, i: nat, sqrt: real -> real)
    requires 0 < w && i < |vs| && i + 1 < w
    ensures SmaAt(vs, w, i) == NaN && RollSumAt(vs, w, i) == NaN && RollStdAt(vs, w, i, sqrt) == NaN
  {
  }

  /** One NaN among the values read so far makes SMA and sum NaN from then on. */
  lemma Poisoned(vs: seq<Num>, w: nat, i: nat, j: nat, sqrt: real -> real)
    requires 0 < w && j <= i < |vs| && vs[j] == NaN
    ensures SmaAt(vs, w, i) == NaN && RollSumAt(vs, w, i) == NaN
    ensures i + 1 >= w ==> RollStdAt(vs, w, i, sqrt) == Val(0.0)
  {
    assert vs[..i + 1][j] == NaN;
  }

  /** The SMA is the rolling sum divided by the window. */
  lemma SmaIsRollSumOverWindow(vs: seq<Num>, w: nat, i: nat)
    requires 0 < w && i < |vs|
    ensures SmaAt(vs, w, i) == Div(RollSumAt(vs, w, i), w as real)
  {
  }

  /** Once warm and NaN-free, the SMA lies between any bounds of its window, and a
      constant window has that constant as its mean. */
  lemma SmaWithinWindow(vs: seq<Num>, w: nat, i: nat, lo: real, hi: real)
    requires 0 < w && i < |vs| && i + 1 >= w && NaNFree(vs[..i + 1])
    requires forall k :: i + 1 - w <= k <= i ==> lo <= Real(vs[k]) <= hi
    ensures SmaAt(vs, w, i).Val? && lo <= SmaAt(vs, w, i).v <= hi
  {
    var win := vs[i + 1 - w..i + 1];
    forall k | 0 <= k < |win| ensures lo <= Real(win[k]) <= hi {
      assert win[k] == vs[i + 1 - w + k];
    }
    TotalBounds(win, lo, hi);
    MeanBounds(Total(win), w as real, lo, hi);
  }

  /** The std the pass stores is the square root of the population variance of the
      window: the running-sums formula is exact over the reals and never negative,
      so the clamp at 0 only ever replaces sqrt(0) by 0. */
  lemma RollStdIsPopulationStd(vs: seq<Num>, w: nat, i: nat, sqrt: real -> real)
    requires IsSqrt(sqrt)
    requires 0 < w && i < |vs| && i + 1 >= w && NaNFree(vs[..i + 1])
    ensures RollStdAt(vs, w, i, sqrt) == Val(sqrt(PopVariance(vs[i + 1 - w..i + 1])))
  {
    var win := vs[i + 1 - w..i + 1];
    NaiveVarianceIsPopulationVariance(win);
    PopVarianceFacts(win);
  }

  /** A stored std is never negative, even where NaN poisoned the window. */
  lemma RollStdNonNegative(vs: seq<Num>, w: nat, i: nat, sqrt: real -> real)
    requires IsSqrt(sqrt) && 0 < w && i < |vs|
    ensures RollStdAt(vs, w, i, sqrt).Val? ==> RollStdAt(vs, w, i, sqrt).v >= 0.0
  {
  }

  /** A constant window has std exactly 0. */
  lemma RollStdOfConstantWindow(vs: seq<Num>, w: nat, i: nat, sqrt: real -> real, c: real)
    requires IsSqrt(sqrt)
    requires 0 < w && i < |vs| && i + 1 >= w && NaNFree(vs[..i + 1])
    requires Constant(vs[i + 1 - w..i + 1], c)
    ensures RollStdAt(vs, w, i, sqrt) == Val(0.0)
  {
    RollStdIsPopulationStd(vs, w, i, sqrt);
    PopVarianceFacts(vs[i + 1 - w..i + 1]);
  }

  // ---------------------------------------------------------------------------
  // EMA

  lemma AlphaInUnitInterval(w: nat)
    requires w >= 1
    ensures 0.0 < Alpha(w) <= 1.0
  {
  }

  lemma EmaBars(rows: seq<Record>, w: nat, col: string, k: nat)
    requires !Degenerate(rows, w) && IsColumn(col) && k < |rows|
    ensures var vs := ColumnValues(rows, col);
            && EmaEffect(rows, w, col).outcome == Success
            && Reading(EmaEffect(rows, w, col).rows[k], EmaName(w)) == EmaAt(vs, Alpha(w), k)
  {
    var vs := ColumnValues(rows, col);
    ValuesAt(vs, w, Alpha(w), x => x, |rows|, k);
    AnnotateOnlyWrites(rows, EmaName(w), EmaValues(vs, Alpha(w), |rows|));
  }

  /** With NaN-free values and 0 < alpha <= 1 the EMA stays within any bounds of the
      values seen so far; in particular no bar gets NaN. */
  lemma {:induction false} EmaWithinBounds(vs: seq<Num>, alpha: real, i: nat, lo: real, hi: real)
    requires 0.0 < alpha <= 1.0 && i < |vs|
    requires forall k :: 0 <= k <= i ==> vs[k].Val? && lo <= vs[k].v <= hi
    ensures EmaAt(vs, alpha, i).Val? && lo <= EmaAt(vs, alpha, i).v <= hi
    decreases i
  {
    if i > 0 {
      EmaWithinBounds(vs, alpha, i - 1, lo, hi);
      StepBounds(alpha, vs[i], EmaAt(vs, alpha, i - 1), lo, hi);
    }
  }

  /** One EMA step from two values within bounds stays within them. */
  lemma StepBounds(alpha: real, v: Num, p: Num, lo: real, hi: real)
    requires 0.0 < alpha <= 1.0
    requires v.Val? && lo <= v.v <= hi && p.Val? && lo <= p.v <= hi
    ensures EmaStep(alpha, v, p).Val? && lo <= EmaStep(alpha, v, p).v <= hi
  {
    ConvexBounds(alpha, v.v, p.v, lo, hi);
  }

  lemma ConvexBounds(a: real, v: real, p: real, lo: real, hi: real)
    requires 0.0 < a <= 1.0 && lo <= v <= hi && lo <= p <= hi
    ensures lo <= a * v + (1.0 - a) * p <= hi
  {
    var b := 1.0 - a;
    MulNonNeg(a, hi - v);
    MulNonNeg(b, hi - p);
    MulNonNeg(a, v - lo);
    MulNonNeg(b, p - lo);
    assert hi - (a * v + b * p) == a * (hi - v) + b * (hi - p);
    assert (a * v + b * p) - lo == a * (v - lo) + b * (p - lo);
  }

  lemma MulNonNeg(x: real, y: real)
    requires x >= 0.0 && y >= 0.0
    ensures x * y >= 0.0
  {
  }

  /** A NaN value makes the EMA NaN at that bar and at every later one. */
  lemma {:induction false} EmaPoisoned(vs: seq<Num>, alpha: real, i: nat, j: nat)
    requires j <= i < |vs| && vs[j] == NaN
    ensures EmaAt(vs, alpha, i) == NaN
    decreases i
  {
    if i > j {
      EmaPoisoned(vs, alpha, i - 1, j);
    }
  }

  // ---------------------------------------------------------------------------
  // Z-score

  /** Inside the z pass, reading the column fails exactly on a bar that carries both
      rolling statistics when the column name is unknown. */
  lemma ZBarFails(r: Record, w: nat, col: string)
    ensures ZBar(r, w, col).Err? <==> !IsColumn(col) && RollMeanName(w) in r.indicators && RollStdName(w) in r.indicators
    ensures ZBar(r, w, col).Err? ==> ZBar(r, w, col).error == InvalidColumn(col)
  {
  }

  /** The z values of the first n bars, where reading them succeeds. */
  ghost function ZValues(rows: seq<Record>, w: nat, col: string, n: nat): (r: seq<Num>)
    requires n <= |rows|
    ensures |r| == n
  {
    if n == 0 then []
    else ZValues(rows, w, col, n - 1) + [match ZBar(rows[n - 1], w, col) case Ok(z) => z case Err(_) => NaN]
  }

  lemma {:induction false} ZValuesAt(rows: seq<Record>, w: nat, col: string, n: nat, k: nat)
    requires k < n <= |rows| && ZBar(rows[k], w, col).Ok?
    ensures ZValues(rows, w, col, n)[k] == ZBar(rows[k], w, col).value
  {
    if k < n - 1 {
      ZValuesAt(rows, w, col, n - 1, k);
    }
  }

  /** From any point of a run that has not failed, the z loop finishes by writing
      every bar's z value, provided no read fails. */
  lemma {:induction false} ZFromSucceeds(rows: seq<Record>, w: nat, col: string, vals: seq<Num>)
    requires |vals| <= |rows|
    requires forall k :: 0 <= k < |rows| ==> ZBar(rows[k], w, col).Ok?
    requires vals == ZValues(rows, w, col, |vals|)
    ensures ZFrom(AnnotatePrefix(rows, ZName(w), vals), w, col, |vals|)
            == Effect(Annotate(rows, ZName(w), ZValues(rows, w, col, |rows|)), Success)
    decreases |rows| - |vals|
  {
    if |vals| == |rows| {
      AnnotatePrefixEnds(rows, ZName(w), vals);
    } else {
      var i := |vals|;
      var z := ZBar(rows[i], w, col).value;
      var cur := AnnotatePrefix(rows, ZName(w), vals);
      AnnotatePrefixStep(rows, ZName(w), vals, z);
      assert ZFrom(cur, w, col, i) == ZFrom(cur[i := SetIndicator(rows[i], ZName(w), z)], w, col, i + 1);
      assert vals + [z] == ZValues(rows, w, col, i + 1);
      ZFromSucceeds(rows, w, col, vals + [z]);
    }
  }

  /** The z loop over a series none of whose reads fails: every bar gets its z value. */
  lemma ZFromClosed(rows: seq<Record>, w: nat, col: string)
    requires forall k :: 0 <= k < |rows| ==> ZBar(rows[k], w, col).Ok?
    ensures ZFrom(rows, w, col, 0) == Effect(Annotate(rows, ZName(w), ZValues(rows, w, col, |rows|)), Success)
    ensures forall k :: 0 <= k < |rows| ==> Reading(ZFrom(rows, w, col, 0).rows[k], ZName(w)) == ZBar(rows[k], w, col).value
  {
    assert rows[..0] == [] && rows[0..] == rows;
    assert AnnotatePrefix(rows, ZName(w), []) == rows;
    assert ZValues(rows, w, col, 0) == [];
    ZFromSucceeds(rows, w, col, []);
    AnnotateOnlyWrites(rows, ZName(w), ZValues(rows, w, col, |rows|));
    forall k | 0 <= k < |rows| ensures Reading(ZFrom(rows, w, col, 0).rows[k], ZName(w)) == ZBar(rows[k], w, col).value {
      ZValuesAt(rows, w, col, |rows|, k);
    }
  }

  /** A failing read anywhere ahead makes the z loop end with InvalidColumn. */
  lemma {:induction false} ZFromFails(rows: seq<Record>, w: nat, col: string, i: nat, k: nat)
    requires i <= k < |rows| && ZBar(rows[k], w, col).Err?
    ensures ZFrom(rows, w, col, i).outcome == Failure(InvalidColumn(col))
    decreases |rows| - i
  {
    match ZBar(rows[i], w, col)
    case Err(e) =>
    case Ok(z) =>
      var next := rows[i := SetIndicator(rows[i], ZName(w), z)];
      assert next[k] == rows[k];
      ZFromFails(next, w, col, i + 1, k);
  }

  /** The z loop writes only `Z_w`. */
  lemma {:induction false} ZFromFrame(rows: seq<Record>, w: nat, col: string, i: nat)
    requires i <= |rows|
    ensures OnlyWrites(rows, ZFrom(rows, w, col, i).rows, {ZName(w)}, false)
    decreases |rows| - i
  {
    if i < |rows| {
      match ZBar(rows[i], w, col)
      case Err(e) =>
      case Ok(z) =>
        var next := rows[i := SetIndicator(rows[i], ZName(w), z)];
        ZFromFrame(next, w, col, i + 1);
        assert OnlyWrites(rows, next, {ZName(w)}, false);
        OnlyWritesTrans(rows, next, ZFrom(next, w, col, i + 1).rows, {ZName(w)}, {ZName(w)}, false, false);
    }
  }

  /** The z-score pass writes the two rolling statistics (when it has to compute
      them) and `Z_w`, nothing else. */
  lemma ZscoreFrame(rows: seq<Record>, w: nat, col: string, sqrt: real -> real)
    ensures OnlyWrites(rows, ZscoreEffect(rows, w, col, sqrt).rows, {RollMeanName(w), RollStdName(w), ZName(w)}, false)
  {
    if !Degenerate(rows, w) {
      var pre := if RollMeanName(w) !in rows[0].indicators then RollMeanStdEffect(rows, w, col, sqrt)
                 else Effect(rows, Success);
      RollMeanStdFrame(rows, w, col, sqrt);
      assert OnlyWrites(rows, pre.rows, {RollMeanName(w), RollStdName(w)}, false);
      if pre.outcome.Success? {
        ZFromFrame(pre.rows, w, col, 0);
        OnlyWritesTrans(rows, pre.rows, ZFrom(pre.rows, w, col, 0).rows, {RollMeanName(w), RollStdName(w)}, {ZName(w)}, false, false);
      }
    }
  }

  /** The rolling statistics are computed only when bar 0 lacks `ROLL_MEAN_w`;
      otherwise the stored statistics are used as they are. */
  lemma ZscoreLazy(rows: seq<Record>, w: nat, col: string, sqrt: real -> real)
    requires !Degenerate(rows, w) && RollMeanName(w) in rows[0].indicators
    ensures ZscoreEffect(rows, w, col, sqrt) == ZFrom(rows, w, col, 0)
  {
  }

  /** On a fresh series the z-score of bar k is computed from that bar's value and its
      own rolling mean and std. */
  lemma ZscoreFresh(rows: seq<Record>, w: nat, col: string, sqrt: real -> real, k: nat)
    requires !Degenerate(rows, w) && IsColumn(col) && RollMeanName(w) !in rows[0].indicators && k < |rows|
    ensures |ZscoreEffect(rows, w, col, sqrt).rows| == |rows|
    ensures var vs := ColumnValues(rows, col);
            && ZscoreEffect(rows, w, col, sqrt).outcome == Success
            && Reading(ZscoreEffect(rows, w, col, sqrt).rows[k], ZName(w))
               == ZValue(vs[k], SmaAt(vs, w, k), RollStdAt(vs, w, k, sqrt))
  {
    var vs := ColumnValues(rows, col);
    var pre := RollMeanStdEffect(rows, w, col, sqrt).rows;
    forall j | 0 <= j < |rows| ensures ZBar(pre[j], w, col).Ok? {
      PreparedZBar(rows, w, col, sqrt, j);
    }
    ZFromClosed(pre, w, col);
    assert ZscoreEffect(rows, w, col, sqrt) == ZFrom(pre, w, col, 0);
    PreparedZBar(rows, w, col, sqrt, k);
  }

  /** After the rolling statistics are computed on a valid column, bar k's z step
      succeeds with the z value of its own window. */
  lemma PreparedZBar(rows: seq<Record>, w: nat, col: string, sqrt: real -> real, k: nat)
    requires !Degenerate(rows, w) && IsColumn(col) && k < |rows|
    ensures var vs := ColumnValues(rows, col);
            var pre := RollMeanStdEffect(rows, w, col, sqrt).rows;
            |pre| == |rows| && ZBar(pre[k], w, col) == Ok(ZValue(vs[k], SmaAt(vs, w, k), RollStdAt(vs, w, k, sqrt)))
  {
    var vs := ColumnValues(rows, col);
    var pre := RollMeanStdEffect(rows, w, col, sqrt).rows;
    RollMeanStdFrame(rows, w, col, sqrt);
    WindowedBars(rows, w, col, sqrt, k);
    ColumnValuesAt(rows, col, k);
    OnlyWritesSameFields(rows, pre, {RollMeanName(w), RollStdName(w)}, false);
    ReadSameFields(pre, rows, col, k);
  }

  /** Warm and NaN-free, the z-score is the value's distance from the window mean in
      units of the window's population std, unless that std is at most 1e-10. */
  lemma ZscoreOfWarmBar(vs: seq<Num>, w: nat, k: nat, sqrt: real -> real)
    requires IsSqrt(sqrt)
    requires 0 < w && k < |vs| && k + 1 >= w && NaNFree(vs[..k + 1])
    ensures var win := vs[k + 1 - w..k + 1];
            var sd := sqrt(PopVariance(win));
            ZValue(vs[k], SmaAt(vs, w, k), RollStdAt(vs, w, k, sqrt))
            == if sd > Epsilon then Val((vs[k].v - MeanOf(win)) / sd) else NaN
  {
    RollStdIsPopulationStd(vs, w, k, sqrt);
    assert vs[..k + 1][k] == vs[k];
  }

  /** Before w values were seen the z-score is NaN. */
  lemma ZscoreWarmUp(vs: seq<Num>, w: nat, k: nat, sqrt: real -> real)
    requires 0 < w && k < |vs| && k + 1 < w
    ensures ZValue(vs[k], SmaAt(vs, w, k), RollStdAt(vs, w, k, sqrt)) == NaN
  {
  }

  // ---------------------------------------------------------------------------
  // Volatility

  /** The volatility pass writes the rolling statistics (when it has to) and `VOL_w`. */
  lemma VolatilityFrame(rows: seq<Record>, w: nat, col: string, periodsPerYear: real, sqrt: real -> real)
    ensures OnlyWrites(rows, VolatilityEffect(rows, w, col, periodsPerYear, sqrt).rows,
                       {RollMeanName(w), RollStdName(w), VolName(w)}, false)
  {
    if !Degenerate(rows, w) {
      var pre := if RollStdName(w) !in rows[0].indicators then RollMeanStdEffect(rows, w, col, sqrt)
                 else Effect(rows, Success);
      RollMeanStdFrame(rows, w, col, sqrt);
      assert OnlyWrites(rows, pre.rows, {RollMeanName(w), RollStdName(w)}, false);
      if pre.outcome.Success? {
        var vals := VolValues(pre.rows, w, SqrtNum(sqrt, periodsPerYear), |pre.rows|);
        AnnotateOnlyWrites(pre.rows, VolName(w), vals);
        OnlyWritesTrans(rows, pre.rows, Annotate(pre.rows, VolName(w), vals), {RollMeanName(w), RollStdName(w)}, {VolName(w)}, false, false);
      }
    }
  }

  /** On a fresh series `VOL_w` is NaN during warm-up and the bar's rolling std times
      sqrt(periods_per_year) afterwards. */
  lemma VolatilityFresh(rows: seq<Record>, w: nat, col: string, periodsPerYear: real, sqrt: real -> real, k: nat)
    requires !Degenerate(rows, w) && IsColumn(col) && RollStdName(w) !in rows[0].indicators && k < |rows|
    ensures var vs := ColumnValues(rows, col);
            var e := VolatilityEffect(rows, w, col, periodsPerYear, sqrt);
            && e.outcome == Success
            && Reading(e.rows[k], VolName(w))
               == if k + 1 < w then NaN else Mul(RollStdAt(vs, w, k, sqrt), SqrtNum(sqrt, periodsPerYear))
  {
    var pre := RollMeanStdEffect(rows, w, col, sqrt).rows;
    var factor := SqrtNum(sqrt, periodsPerYear);
    WindowedBars(rows, w, col, sqrt, k);
    RollMeanStdFrame(rows, w, col, sqrt);
    VolValuesAt(pre, w, factor, |pre|, k);
    AnnotateOnlyWrites(pre, VolName(w), VolValues(pre, w, factor, |pre|));
  }

  // ---------------------------------------------------------------------------
  // Idempotence: a second identical call stores the same values again

  /** Annotating leaves every column as it was and repeating the annotation is a no-op. */
  lemma AnnotateKeepsColumn(rows: seq<Record>, name: string, vals: seq<Num>, col: string)
    requires |vals| == |rows| && IsColumn(col)
    ensures ColumnValues(Annotate(rows, name, vals), col) == ColumnValues(rows, col)
  {
    AnnotateOnlyWrites(rows, name, vals);
    OnlyWritesSameFields(rows, Annotate(rows, name, vals), {name}, false);
    ColumnValuesSameFields(rows, Annotate(rows, name, vals), col);
  }

  lemma SingleKeyIdempotent(rows: seq<Record>, w: nat, col: string)
    ensures SmaEffect(SmaEffect(rows, w, col).rows, w, col) == SmaEffect(rows, w, col)
    ensures RollSumEffect(RollSumEffect(rows, w, col).rows, w, col) == RollSumEffect(rows, w, col)
    ensures EmaEffect(EmaEffect(rows, w, col).rows, w, col) == EmaEffect(rows, w, col)
  {
    if !Degenerate(rows, w) && IsColumn(col) {
      var vs := ColumnValues(rows, col);
      var n := |rows|;
      AnnotateKeepsColumn(rows, SmaName(w), SmaValues(vs, w, n), col);
      AnnotateTwice(rows, SmaName(w), SmaValues(vs, w, n));
      AnnotateKeepsColumn(rows, RollSumName(w), RollSumValues(vs, w, n), col);
      AnnotateTwice(rows, RollSumName(w), RollSumValues(vs, w, n));
      AnnotateKeepsColumn(rows, EmaName(w), EmaValues(vs, Alpha(w), n), col);
      AnnotateTwice(rows, EmaName(w), EmaValues(vs, Alpha(w), n));
    }
  }

  lemma RollMeanStdIdempotent(rows: seq<Record>, w: nat, col: string, sqrt: real -> real)
    ensures RollMeanStdEffect(RollMeanStdEffect(rows, w, col, sqrt).rows, w, col, sqrt) == RollMeanStdEffect(rows, w, col, sqrt)
  {
    if !Degenerate(rows, w) && IsColumn(col) {
      var vs := ColumnValues(rows, col);
      var n := |rows|;
      var means, sds := SmaValues(vs, w, n), RollStdValues(vs, w, sqrt, n);
      var mid := Annotate(rows, RollMeanName(w), means);
      var r := Annotate(mid, RollStdName(w), sds);
      AnnotateKeepsColumn(rows, RollMeanName(w), means, col);
      AnnotateKeepsColumn(mid, RollStdName(w), sds, col);
      NamesAreKeys(w, w);
      AnnotateBars(rows, RollMeanName(w), means);
      AnnotateBars(mid, RollStdName(w), sds);
      AnnotateHeld(r, RollMeanName(w), means);
      AnnotateHeld(r, RollStdName(w), sds);
    }
  }

  /** Writing `Z_w` does not change what the z pass reads from a bar. */
  lemma ZBarIgnoresZ(r: Record, w: nat, col: string, z: Num)
    ensures ZBar(SetIndicator(r, ZName(w), z), w, col) == ZBar(r, w, col)
  {
    NamesAreKeys(w, w);
  }

  /** A successful mean/std pass leaves the series length and stores both keys on the first bar. */
  lemma RollMeanStdKeys(rows: seq<Record>, w: nat, col: string, sqrt: real -> real)
    requires !Degenerate(rows, w) && IsColumn(col)
    ensures var r := RollMeanStdEffect(rows, w, col, sqrt).rows;
            && |r| == |rows|
            && RollMeanName(w) in r[0].indicators && RollStdName(w) in r[0].indicators
  {
    var vs := ColumnValues(rows, col);
    var n := |rows|;
    var mid := Annotate(rows, RollMeanName(w), SmaValues(vs, w, n));
    AnnotateOnlyWrites(rows, RollMeanName(w), SmaValues(vs, w, n));
    AnnotateOnlyWrites(mid, RollStdName(w), RollStdValues(vs, w, sqrt, n));
    AnnotateBars(mid, RollStdName(w), RollStdValues(vs, w, sqrt, n));
  }

  /** Once a series holds the z values of its own bars, the z loop changes nothing. */
  lemma ZFromRepeat(p: seq<Record>, w: nat, col: string)
    requires forall k :: 0 <= k < |p| ==> ZBar(p[k], w, col).Ok?
    ensures var r := Annotate(p, ZName(w), ZValues(p, w, col, |p|));
            && ZFrom(r, w, col, 0) == Effect(r, Success)
            && (|p| > 0 && RollMeanName(w) in p[0].indicators ==> RollMeanName(w) in r[0].indicators)
  {
    var zs := ZValues(p, w, col, |p|);
    var r := Annotate(p, ZName(w), zs);
    AnnotateBars(p, ZName(w), zs);
    forall k | 0 <= k < |r| ensures ZBar(r[k], w, col) == ZBar(p[k], w, col) {
      ZBarIgnoresZ(p[k], w, col, zs[k]);
    }
    ZFromClosed(r, w, col);
    forall k | 0 <= k < |r| ensures ZName(w) in r[k].indicators && r[k].indicators[ZName(w)] == ZValues(r, w, col, |r|)[k] {
      ZValuesAt(r, w, col, |r|, k);
      ZValuesAt(p, w, col, |p|, k);
    }
    AnnotateHeld(r, ZName(w), ZValues(r, w, col, |r|));
  }

  /** Once a z-score pass has succeeded, running it again stores the same values. */
  lemma ZscoreIdempotent(rows: seq<Record>, w: nat, col: string, sqrt: real -> real)
    requires ZscoreEffect(rows, w, col, sqrt).outcome == Success
    ensures ZscoreEffect(ZscoreEffect(rows, w, col, sqrt).rows, w, col, sqrt) == ZscoreEffect(rows, w, col, sqrt)
  {
    if !Degenerate(rows, w) {
      var pre := if RollMeanName(w) !in rows[0].indicators then RollMeanStdEffect(rows, w, col, sqrt)
                 else Effect(rows, Success);
      var p := pre.rows;
      if RollMeanName(w) !in rows[0].indicators {
        RollMeanStdKeys(rows, w, col, sqrt);
      }
      assert |p| == |rows| && RollMeanName(w) in p[0].indicators;
      forall k | 0 <= k < |p| ensures ZBar(p[k], w, col).Ok? {
        if ZBar(p[k], w, col).Err? {
          ZFromFails(p, w, col, 0, k);
        }
      }
      ZFromClosed(p, w, col);
      ZFromRepeat(p, w, col);
    }
  }

  /** Writing `VOL_w` does not change what the volatility pass reads from a bar. */
  lemma VolValueIgnoresVol(r: Record, w: nat, factor: Num, x: Num)
    ensures VolValue(SetIndicator(r, VolName(w), x), w, factor) == VolValue(r, w, factor)
  {
    NamesAreKeys(w, w);
  }

  /** Once a series holds the volatility values of its own bars, the pass changes nothing. */
  lemma VolRepeat(p: seq<Record>, w: nat, factor: Num)
    ensures var r := Annotate(p, VolName(w), VolValues(p, w, factor, |p|));
            && Annotate(r, VolName(w), VolValues(r, w, factor, |r|)) == r
            && (|p| > 0 && RollStdName(w) in p[0].indicators ==> RollStdName(w) in r[0].indicators)
  {
    var vols := VolValues(p, w, factor, |p|);
    var r := Annotate(p, VolName(w), vols);
    AnnotateBars(p, VolName(w), vols);
    forall k | 0 <= k < |r| ensures VolName(w) in r[k].indicators && r[k].indicators[VolName(w)] == VolValues(r, w, factor, |r|)[k] {
      VolValueIgnoresVol(p[k], w, factor, vols[k]);
      VolValuesAt(r, w, factor, |r|, k);
      VolValuesAt(p, w, factor, |p|, k);
    }
    AnnotateHeld(r, VolName(w), VolValues(r, w, factor, |r|));
    NamesAreKeys(w, w);
  }

  /** Once a volatility pass has succeeded, running it again stores the same values. */
  lemma VolatilityIdempotent(rows: seq<Record>, w: nat, col: string, periodsPerYear: real, sqrt: real -> real)
    requires VolatilityEffect(rows, w, col, periodsPerYear, sqrt).outcome == Success
    ensures VolatilityEffect(VolatilityEffect(rows, w, col, periodsPerYear, sqrt).rows, w, col, periodsPerYear, sqrt)
            == VolatilityEffect(rows, w, col, periodsPerYear, sqrt)
  {
    if !Degenerate(rows, w) {
      var pre := if RollStdName(w) !in rows[0].indicators then RollMeanStdEffect(rows, w, col, sqrt)
                 else Effect(rows, Success);
      var p := pre.rows;
      if RollStdName(w) !in rows[0].indicators {
        RollMeanStdKeys(rows, w, col, sqrt);
      }
      assert |p| == |rows| && RollStdName(w) in p[0].indicators;
      VolRepeat(p, w, SqrtNum(sqrt, periodsPerYear));
    }
  }
}
