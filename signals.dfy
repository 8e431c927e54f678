/**
 * The signal engine: four rules that turn stored indicators into a position
 * (+1 long, 0 flat, -1 short) per bar. Each rule is one left-to-right pass that
 * writes the position both under the output key and into the bar's tag; the
 * stateful rules carry the last position from bar to bar.
 *
 * Each rule is specified by a function that computes the positions from the
 * series the loop starts from (a `Run`: the positions of the first n bars and
 * the carried state after them), and the method is proved to leave exactly
 * those positions on the series.
 */
module Signals {
  import opened Numeric
  import opened Records
  import opened Series
  import opened Indicators

  /** A position: long, flat or short. */
  predicate IsPosition(s: int) {
    -1 <= s <= 1
  }

  /** The series with bar k (for k < |sigs|) tagged with position sigs[k]; later bars untouched. */
  function Tagged(rows: seq<Record>, out: string, sigs: seq<int>): (r: seq<Record>)
    requires |sigs| <= |rows|
    ensures |r| == |rows|
  {
    seq(|rows|, k requires 0 <= k < |rows| => if k < |sigs| then SetSignal(rows[k], out, sigs[k]) else rows[k])
  }

  lemma TaggedStart(rows: seq<Record>, out: string)
    ensures Tagged(rows, out, []) == rows
  {
  }

  /** Tagging bar |sigs| extends the tagged prefix by one bar. */
  lemma TaggedStep(rows: seq<Record>, out: string, sigs: seq<int>, s: int)
    requires |sigs| < |rows|
    ensures Tagged(rows, out, sigs)[|sigs|] == rows[|sigs|]
    ensures Tagged(rows, out, sigs)[|sigs| := SetSignal(rows[|sigs|], out, s)] == Tagged(rows, out, sigs + [s])
  {
    var a := Tagged(rows, out, sigs)[|sigs| := SetSignal(rows[|sigs|], out, s)];
    var b := Tagged(rows, out, sigs + [s]);
    forall k | 0 <= k < |rows| ensures a[k] == b[k] {
    }
  }

  /** Tagging leaves every numeric field as it was, so every column reads the same. */
  lemma SetSignalKeepsFields(r: Record, out: string, s: int, col: string)
    ensures GetColumnValue(SetSignal(r, out, s), col) == GetColumnValue(r, col)
  {
  }

  /** The carried state of a stateful rule: the positions of the first bars and the position held after them. */
  datatype Run = Run(sigs: seq<int>, held: int)

  /** Both keys present on the bar and neither value NaN. */
  predicate Defined(r: Record, a: string, b: string) {
    a in r.indicators && b in r.indicators && r.indicators[a].Val? && r.indicators[b].Val?
  }

  // ---------------------------------------------------------------------------
  // SMA crossover (src/signals.cpp:9-76)

  /** Golden cross +1, death cross -1, otherwise the held signal. */
  function Cross(prevFast: real, prevSlow: real, fast: real, slow: real, held: int): int {
    if prevFast <= prevSlow && fast > slow then 1
    else if prevFast >= prevSlow && fast < slow then -1
    else held
  }

  /**
   * Signal of a bar whose two SMAs are defined. `prev` is the previous bar as the
   * test reads it (already tagged with its own signal), absent for bar 0; a
   * previous bar without two defined SMAs gives 0.
   */
  function CrossAt(prev: Option<Record>, cur: Record, fast: string, slow: string, held: int): int
    requires Defined(cur, fast, slow)
  {
    if prev.Some? && Defined(prev.value, fast, slow) then
      Cross(prev.value.indicators[fast].v, prev.value.indicators[slow].v, cur.indicators[fast].v, cur.indicators[slow].v, held)
    else 0
  }

  /** One bar of the crossover loop: a bar with two defined SMAs sets and holds its signal, any other bar gets 0. */
  function CrossStep(r: Run, prev: Option<Record>, cur: Record, fast: string, slow: string): Run {
    if Defined(cur, fast, slow) then
      var s := CrossAt(prev, cur, fast, slow, r.held);
      Run(r.sigs + [s], s)
    else Run(r.sigs + [0], r.held)
  }

  /** The crossover positions of the first n bars and the last signal it set. */
  function CrossRun(rows: seq<Record>, fast: string, slow: string, out: string, n: nat): (r: Run)
    requires n <= |rows|
    ensures |r.sigs| == n
  {
    if n == 0 then Run([], 0)
    else
      var r := CrossRun(rows, fast, slow, out, n - 1);
      CrossStep(r, if n > 1 then Some(SetSignal(rows[n - 2], out, r.sigs[n - 2])) else None, rows[n - 1], fast, slow)
  }

  /** `SMA_w` added from `close` when bar 0 lacks it. */
  function SmaIfMissing(rows: seq<Record>, w: nat): seq<Record> {
    if |rows| > 0 && SmaName(w) !in rows[0].indicators then SmaEffect(rows, w, "close").rows else rows
  }

  /** The series after the SMAs the rule needs were added, the fast one first. */
  function CrossoverPrepared(rows: seq<Record>, fast: nat, slow: nat): seq<Record> {
    SmaIfMissing(SmaIfMissing(rows, fast), slow)
  }

  /** The crossover loop over a prepared series. */
  function CrossoverPass(p: seq<Record>, fast: string, slow: string, out: string): seq<Record> {
    Tagged(p, out, CrossRun(p, fast, slow, out, |p|).sigs)
  }

  function CrossoverEffect(rows: seq<Record>, fast: nat, slow: nat, out: string): seq<Record> {
    if |rows| == 0 || fast >= slow then rows
    else CrossoverPass(CrossoverPrepared(rows, fast, slow), SmaName(fast), SmaName(slow), out)
  }

  method SmaCrossover(ts: TimeSeries, fast: nat, slow: nat, out: string)
    modifies ts
    ensures ts.rows == CrossoverEffect(old(ts.rows), fast, slow, out)
  {
    if |ts.rows| == 0 || fast >= slow {
      return;
    }
    PrepareCrossover(ts, fast, slow);
    RunCrossover(ts, SmaName(fast), SmaName(slow), out);
  }

  /** Adds `SMA_fast` and then `SMA_slow` from `close` when bar 0 lacks them; neither call can fail. */
  method PrepareCrossover(ts: TimeSeries, fast: nat, slow: nat)
    modifies ts
    ensures ts.rows == CrossoverPrepared(old(ts.rows), fast, slow)
  {
    if |ts.rows| > 0 && SmaName(fast) !in ts.rows[0].indicators {
      var o := AddSma(ts, fast, "close");
    }
    if |ts.rows| > 0 && SmaName(slow) !in ts.rows[0].indicators {
      var o := AddSma(ts, slow, "close");
    }
  }

  /** The signals of one bar, as CrossStep states them. */
  method CrossBar(ghost sigs: seq<int>, prev: Option<Record>, cur: Record, fast: string, slow: string, held: int)
    returns (s: int, held2: int)
    ensures CrossStep(Run(sigs, held), prev, cur, fast, slow) == Run(sigs + [s], held2)
  {
    s, held2 := 0, held;
    if fast in cur.indicators && slow in cur.indicators {
      var f, sl := cur.indicators[fast], cur.indicators[slow];
      if f.Val? && sl.Val? {
        if prev.Some? {
          var pb := prev.value;
          if fast in pb.indicators && slow in pb.indicators {
            var pf, ps := pb.indicators[fast], pb.indicators[slow];
            if pf.Val? && ps.Val? {
              if pf.v <= ps.v && f.v > sl.v {
                s := 1;
              } else if pf.v >= ps.v && f.v < sl.v {
                s := -1;
              } else {
                s := held;
              }
            }
          }
        }
        held2 := s;
      }
    }
  }

  /** One more bar of the crossover run, read from the series as the loop has tagged it so far. */
  lemma CrossRunNext(p: seq<Record>, fast: string, slow: string, out: string, sigs: seq<int>, held: int)
    requires |sigs| < |p| && CrossRun(p, fast, slow, out, |sigs|) == Run(sigs, held)
    ensures var t := Tagged(p, out, sigs);
            var i := |sigs|;
            CrossRun(p, fast, slow, out, i + 1) == CrossStep(Run(sigs, held), if i > 0 then Some(t[i - 1]) else None, t[i], fast, slow)
  {
  }

  /** The loop of the crossover rule over the prepared series. */
  method RunCrossover(ts: TimeSeries, fast: string, slow: string, out: string)
    modifies ts
    ensures ts.rows == CrossoverPass(old(ts.rows), fast, slow, out)
  {
    ghost var p := ts.rows;
    var prev := 0;
    ghost var sigs: seq<int> := [];
    var i := 0;
    TaggedStart(p, out);
    while i < |ts.rows|
      invariant 0 <= i <= |p| && |ts.rows| == |p| && |sigs| == i
      invariant ts.rows == Tagged(p, out, sigs)
      invariant CrossRun(p, fast, slow, out, i) == Run(sigs, prev)
    {
      TaggedStep(p, out, sigs, 0);
      CrossRunNext(p, fast, slow, out, sigs, prev);
      var prevBar := if i > 0 then Some(ts.rows[i - 1]) else None;
      var s;
      s, prev := CrossBar(sigs, prevBar, ts.rows[i], fast, slow, prev);
      ts.rows := ts.rows[i := SetSignal(ts.rows[i], out, s)];
      TaggedStep(p, out, sigs, s);
      sigs := sigs + [s];
      i := i + 1;
    }
  }

  // ---------------------------------------------------------------------------
  // Z-score mean reversion (src/signals.cpp:78-123)

  function Abs(x: real): real {
    if x < 0.0 then -x else x
  }

  /** Enter long below -entry, short above entry, exit inside ±exit, else keep the position. */
  function Reversion(z: real, entry: real, exit: real, pos: int): int {
    if z < -entry then 1
    else if z > entry then -1
    else if Abs(z) < exit && pos != 0 then 0
    else pos
  }

  /** The positions of the first n bars and the position carried after them. */
  function ReversionRun(rows: seq<Record>, zName: string, entry: real, exit: real, n: nat): (r: Run)
    requires n <= |rows|
    ensures |r.sigs| == n
  {
    if n == 0 then Run([], 0)
    else
      var r := ReversionRun(rows, zName, entry, exit, n - 1);
      var b := rows[n - 1];
      if zName in b.indicators && b.indicators[zName].Val? then
        var pos := Reversion(b.indicators[zName].v, entry, exit, r.held);
        Run(r.sigs + [pos], pos)
      else Run(r.sigs + [0], r.held)
  }

  /** The series after `Z_window` was added from `close` where bar 0 lacked it. */
  function ReversionPrepared(rows: seq<Record>, window: nat, sqrt: real -> real): seq<Record> {
    if |rows| > 0 && ZName(window) !in rows[0].indicators then ZscoreEffect(rows, window, "close", sqrt).rows else rows
  }

  /** The mean-reversion loop over a prepared series. */
  function ReversionPass(p: seq<Record>, zName: string, entry: real, exit: real, out: string): seq<Record> {
    Tagged(p, out, ReversionRun(p, zName, entry, exit, |p|).sigs)
  }

  function MeanReversionEffect(rows: seq<Record>, window: nat, entry: real, exit: real, out: string, sqrt: real -> real): seq<Record> {
    if |rows| == 0 then rows
    else ReversionPass(ReversionPrepared(rows, window, sqrt), ZName(window), entry, exit, out)
  }

  method ZscoreMeanReversion(ts: TimeSeries, window: nat, entry: real, exit: real, out: string, sqrt: real -> real)
    modifies ts
    ensures ts.rows == MeanReversionEffect(old(ts.rows), window, entry, exit, out, sqrt)
  {
    if |ts.rows| == 0 {
      return;
    }
    if ZName(window) !in ts.rows[0].indicators {
      var o := AddZscore(ts, window, "close", sqrt);
    }
    RunReversion(ts, ZName(window), entry, exit, out);
  }

  /** The loop of the mean-reversion rule over the prepared series. */
  method RunReversion(ts: TimeSeries, zName: string, entry: real, exit: real, out: string)
    modifies ts
    ensures ts.rows == ReversionPass(old(ts.rows), zName, entry, exit, out)
  {
    ghost var p := ts.rows;
    var pos := 0;
    ghost var sigs: seq<int> := [];
    var i := 0;
    TaggedStart(p, out);
    while i < |ts.rows|
      invariant 0 <= i <= |p| && |ts.rows| == |p| && |sigs| == i
      invariant ts.rows == Tagged(p, out, sigs)
      invariant ReversionRun(p, zName, entry, exit, i) == Run(sigs, pos)
    {
      TaggedStep(p, out, sigs, 0);
      var s := 0;
      var bar := ts.rows[i];
      if zName in bar.indicators {
        var z := bar.indicators[zName];
        if z.Val? {
          if z.v < -entry {
            pos := 1;
          } else if z.v > entry {
            pos := -1;
          } else if Abs(z.v) < exit && pos != 0 {
            pos := 0;
          }
          s := pos;
        }
      }
      ts.rows := ts.rows[i := SetSignal(ts.rows[i], out, s)];
      TaggedStep(p, out, sigs, s);
      sigs := sigs + [s];
      i := i + 1;
    }
  }

  // ---------------------------------------------------------------------------
  // Momentum (src/signals.cpp:125-157)

  /** Position of bar k: 0 in the first `window` bars and where the past price is at most 1e-10, else the rate of change against the thresholds. */
  function MomentumAt(rows: seq<Record>, window: nat, upper: real, lower: real, col: string, k: nat): int
    requires IsColumn(col) && k < |rows|
  {
    if k < window then 0
    else
      var cur := GetColumnValue(rows[k], col).value;
      var past := GetColumnValue(rows[k - window], col).value;
      if past.Val? && past.v > Epsilon then
        var m := Div(Sub(cur, past), past.v);
        if m.Val? && m.v > upper then 1
        else if m.Val? && m.v < lower then -1
        else 0
      else 0
  }

  function MomentumSignals(rows: seq<Record>, window: nat, upper: real, lower: real, col: string): (sigs: seq<int>)
    requires IsColumn(col)
    ensures |sigs| == |rows|
  {
    seq(|rows|, k requires 0 <= k < |rows| => MomentumAt(rows, window, upper, lower, col, k))
  }

  /** Nothing happens on a series of at most `window` bars; an unknown column fails at bar `window`, after the zeros before it. */
  function MomentumEffect(rows: seq<Record>, window: nat, upper: real, lower: real, col: string, out: string): Effect {
    if |rows| <= window then Effect(rows, Success)
    else if IsColumn(col) then Effect(Tagged(rows, out, MomentumSignals(rows, window, upper, lower, col)), Success)
    else Effect(Tagged(rows, out, seq(window, k => 0)), Failure(InvalidColumn(col)))
  }

  method MomentumStrategy(ts: TimeSeries, window: nat, upper: real, lower: real, col: string, out: string)
    returns (outcome: Outcome)
    modifies ts
    ensures Effect(ts.rows, outcome) == MomentumEffect(old(ts.rows), window, upper, lower, col, out)
  {
    if |ts.rows| <= window {
      return Success;
    }
    ghost var rows0 := ts.rows;
    ghost var sigs: seq<int> := [];
    var i := 0;
    TaggedStart(rows0, out);
    while i < |ts.rows|
      invariant 0 <= i <= |rows0| && |ts.rows| == |rows0| && |sigs| == i
      invariant ts.rows == Tagged(rows0, out, sigs)
      invariant i > window ==> IsColumn(col)
      invariant IsColumn(col) ==> forall k :: 0 <= k < i ==> sigs[k] == MomentumAt(rows0, window, upper, lower, col, k)
      invariant !IsColumn(col) ==> i <= window && forall k :: 0 <= k < i ==> sigs[k] == 0
    {
      TaggedStep(rows0, out, sigs, 0);
      var s := 0;
      if i >= window {
        var cur := GetColumnValue(ts.rows[i], col);
        if cur.Err? {
          assert sigs == seq(window, k => 0);
          return Failure(cur.error);
        }
        if window > 0 {
          SetSignalKeepsFields(rows0[i - window], out, sigs[i - window], col);
        }
        var past := GetColumnValue(ts.rows[i - window], col).value;
        if past.Val? && past.v > Epsilon {
          var m := Div(Sub(cur.value, past), past.v);
          if m.Val? && m.v > upper {
            s := 1;
          } else if m.Val? && m.v < lower {
            s := -1;
          }
        }
      }
      ts.rows := ts.rows[i := SetSignal(ts.rows[i], out, s)];
      TaggedStep(rows0, out, sigs, s);
      sigs := sigs + [s];
      i := i + 1;
    }
    assert sigs == MomentumSignals(rows0, window, upper, lower, col);
    return Success;
  }

  // ---------------------------------------------------------------------------
  // Bollinger breakout (src/signals.cpp:159-209)

  /** Long above mean + k·sd, short below mean − k·sd, flat inside the bands; a NaN price keeps the position. */
  function Breakout(price: Num, mean: real, sd: real, numStd: real, pos: int): int {
    var upper := mean + numStd * sd;
    var lower := mean - numStd * sd;
    if price.Val? && price.v > upper then 1
    else if price.Val? && price.v < lower then -1
    else if price.Val? && lower <= price.v <= upper && pos != 0 then 0
    else pos
  }

  /** The price a bar offers the band test; a failing read stops the pass before it is used. */
  function PriceOf(r: Record, col: string): Num {
    match GetColumnValue(r, col)
    case Ok(v) => v
    case Err(_) => NaN
  }

  /** The breakout positions of the first n bars and the position carried after them. */
  function BandRun(rows: seq<Record>, mean: string, std: string, col: string, numStd: real, n: nat): (r: Run)
    requires n <= |rows|
    ensures |r.sigs| == n
  {
    if n == 0 then Run([], 0)
    else
      var r := BandRun(rows, mean, std, col, numStd, n - 1);
      var b := rows[n - 1];
      if Defined(b, mean, std) then
        var pos := Breakout(PriceOf(b, col), b.indicators[mean].v, b.indicators[std].v, numStd, r.held);
        Run(r.sigs + [pos], pos)
      else Run(r.sigs + [0], r.held)
  }

  /** The first bar from i on holding both band keys, |rows| if none does: where an unknown column is first read. */
  function FirstBanded(rows: seq<Record>, mean: string, std: string, i: nat): (j: nat)
    requires i <= |rows|
    ensures i <= j <= |rows|
    decreases |rows| - i
  {
    if i == |rows| then i
    else if mean in rows[i].indicators && std in rows[i].indicators then i
    else FirstBanded(rows, mean, std, i + 1)
  }

  /** The breakout loop over a prepared series: an unknown column fails at the first bar holding both keys. */
  function BandPass(p: seq<Record>, mean: string, std: string, col: string, numStd: real, out: string): Effect {
    var j := if IsColumn(col) then |p| else FirstBanded(p, mean, std, 0);
    Effect(Tagged(p, out, BandRun(p, mean, std, col, numStd, j).sigs), if j < |p| then Failure(InvalidColumn(col)) else Success)
  }

  /** The rolling mean and std added from `col` where bar 0 lacks the mean; this can fail on an unknown column. */
  function BandsPrepared(rows: seq<Record>, window: nat, col: string, sqrt: real -> real): Effect {
    if |rows| > 0 && RollMeanName(window) !in rows[0].indicators then RollMeanStdEffect(rows, window, col, sqrt)
    else Effect(rows, Success)
  }

  function BollingerEffect(rows: seq<Record>, window: nat, numStd: real, col: string, out: string, sqrt: real -> real): Effect {
    if |rows| == 0 then Effect(rows, Success)
    else
      var pre := BandsPrepared(rows, window, col, sqrt);
      if pre.outcome.Failure? then pre
      else BandPass(pre.rows, RollMeanName(window), RollStdName(window), col, numStd, out)
  }

  method BollingerBreakout(ts: TimeSeries, window: nat, numStd: real, col: string, out: string, sqrt: real -> real)
    returns (outcome: Outcome)
    modifies ts
    ensures Effect(ts.rows, outcome) == BollingerEffect(old(ts.rows), window, numStd, col, out, sqrt)
  {
    if |ts.rows| == 0 {
      return Success;
    }
    if RollMeanName(window) !in ts.rows[0].indicators {
      var o := AddRollMeanStd(ts, window, col, sqrt);
      if o.Failure? {
        return o;
      }
    }
    outcome := RunBands(ts, RollMeanName(window), RollStdName(window), col, numStd, out);
  }

  /** The position of one bar with both band keys and a price read, as BandRun states it. */
  method BandBar(mean: Num, sd: Num, price: Num, numStd: real, pos: int) returns (s: int, pos2: int)
    ensures mean.Val? && sd.Val? ==> s == pos2 == Breakout(price, mean.v, sd.v, numStd, pos)
    ensures !(mean.Val? && sd.Val?) ==> s == 0 && pos2 == pos
  {
    s, pos2 := 0, pos;
    if mean.Val? && sd.Val? {
      var upper := mean.v + numStd * sd.v;
      var lower := mean.v - numStd * sd.v;
      if price.Val? && price.v > upper {
        pos2 := 1;
      } else if price.Val? && price.v < lower {
        pos2 := -1;
      } else if price.Val? && price.v >= lower && price.v <= upper && pos2 != 0 {
        pos2 := 0;
      }
      s := pos2;
    }
  }

  /** The loop of the breakout rule over the prepared series. */
  method RunBands(ts: TimeSeries, mean: string, std: string, col: string, numStd: real, out: string)
    returns (outcome: Outcome)
    modifies ts
    ensures Effect(ts.rows, outcome) == BandPass(old(ts.rows), mean, std, col, numStd, out)
  {
    ghost var p := ts.rows;
    var pos := 0;
    ghost var sigs: seq<int> := [];
    var i := 0;
    TaggedStart(p, out);
    while i < |ts.rows|
      invariant 0 <= i <= |p| && |ts.rows| == |p| && |sigs| == i
      invariant ts.rows == Tagged(p, out, sigs)
      invariant BandRun(p, mean, std, col, numStd, i) == Run(sigs, pos)
      invariant !IsColumn(col) ==> FirstBanded(p, mean, std, 0) == FirstBanded(p, mean, std, i)
    {
      TaggedStep(p, out, sigs, 0);
      var s := 0;
      var bar := ts.rows[i];
      if mean in bar.indicators && std in bar.indicators {
        var got := GetColumnValue(bar, col);
        if got.Err? {
          return Failure(got.error);
        }
        s, pos := BandBar(bar.indicators[mean], bar.indicators[std], got.value, numStd, pos);
      }
      ts.rows := ts.rows[i := SetSignal(ts.rows[i], out, s)];
      TaggedStep(p, out, sigs, s);
      sigs := sigs + [s];
      i := i + 1;
    }
    return Success;
  }
}
