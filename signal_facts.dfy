/**
 * What the signal rules promise: every bar a rule processes carries a position
 * in {-1, 0, 1} that is also stored under the output key, each rule writes
 * nothing but its output and the indicators it computes first, and the
 * transition tables of the four rules.
 */
module SignalFacts {
  import opened Numeric
  import opened Records
  import opened Indicators
  import opened IndicatorFacts
  import opened Signals

  /** What a rule leaves on a bar it processed: a position, stored under `out` and in the tag. */
  ghost predicate Marked(r: Record, out: string) {
    out in r.indicators && IsPosition(r.signal) && r.indicators[out] == Val(r.signal as real)
  }

  /** Tagging with positions marks the tagged bars, and writes only `out` and the tags. */
  lemma TaggedMarks(rows: seq<Record>, out: string, sigs: seq<int>)
    requires |sigs| <= |rows| && forall k :: 0 <= k < |sigs| ==> IsPosition(sigs[k])
    ensures OnlyWrites(rows, Tagged(rows, out, sigs), {out}, true)
    ensures forall k :: 0 <= k < |sigs| ==> Marked(Tagged(rows, out, sigs)[k], out) && Tagged(rows, out, sigs)[k].signal == sigs[k]
    ensures forall k :: |sigs| <= k < |rows| ==> Tagged(rows, out, sigs)[k] == rows[k]
  {
  }

  // ---------------------------------------------------------------------------
  // The runs: a later bar never changes an earlier position, and all are positions

  lemma {:induction false} CrossRunPrefix(rows: seq<Record>, fast: string, slow: string, out: string, n: nat, k: nat)
    requires k < n <= |rows|
    ensures CrossRun(rows, fast, slow, out, n).sigs[k] == CrossRun(rows, fast, slow, out, k + 1).sigs[k]
  {
    if k < n - 1 {
      CrossRunPrefix(rows, fast, slow, out, n - 1, k);
    }
  }

  lemma {:induction false} CrossRunPositions(rows: seq<Record>, fast: string, slow: string, out: string, n: nat)
    requires n <= |rows|
    ensures IsPosition(CrossRun(rows, fast, slow, out, n).held)
    ensures forall k :: 0 <= k < n ==> IsPosition(CrossRun(rows, fast, slow, out, n).sigs[k])
  {
    if n > 0 {
      CrossRunPositions(rows, fast, slow, out, n - 1);
    }
  }

  lemma {:induction false} ReversionRunPrefix(rows: seq<Record>, z: string, entry: real, exit: real, n: nat, k: nat)
    requires k < n <= |rows|
    ensures ReversionRun(rows, z, entry, exit, n).sigs[k] == ReversionRun(rows, z, entry, exit, k + 1).sigs[k]
  {
    if k < n - 1 {
      ReversionRunPrefix(rows, z, entry, exit, n - 1, k);
    }
  }

  lemma {:induction false} ReversionRunPositions(rows: seq<Record>, z: string, entry: real, exit: real, n: nat)
    requires n <= |rows|
    ensures IsPosition(ReversionRun(rows, z, entry, exit, n).held)
    ensures forall k :: 0 <= k < n ==> IsPosition(ReversionRun(rows, z, entry, exit, n).sigs[k])
  {
    if n > 0 {
      ReversionRunPositions(rows, z, entry, exit, n - 1);
    }
  }

  lemma {:induction false} BandRunPrefix(rows: seq<Record>, mean: string, std: string, col: string, numStd: real, n: nat, k: nat)
    requires k < n <= |rows|
    ensures BandRun(rows, mean, std, col, numStd, n).sigs[k] == BandRun(rows, mean, std, col, numStd, k + 1).sigs[k]
  {
    if k < n - 1 {
      BandRunPrefix(rows, mean, std, col, numStd, n - 1, k);
    }
  }

  lemma {:induction false} BandRunPositions(rows: seq<Record>, mean: string, std: string, col: string, numStd: real, n: nat)
    requires n <= |rows|
    ensures IsPosition(BandRun(rows, mean, std, col, numStd, n).held)
    ensures forall k :: 0 <= k < n ==> IsPosition(BandRun(rows, mean, std, col, numStd, n).sigs[k])
  {
    if n > 0 {
      BandRunPositions(rows, mean, std, col, numStd, n - 1);
    }
  }

  // ---------------------------------------------------------------------------
  // SMA crossover

  /** Adding a missing SMA writes only its key, keeps the closes, and stores the SMA of the closes on every bar. */
  lemma SmaIfMissingFacts(rows: seq<Record>, w: nat)
    ensures var r := SmaIfMissing(rows, w);
            && OnlyWrites(rows, r, {SmaName(w)}, false)
            && (0 < w && |rows| > 0 && SmaName(w) !in rows[0].indicators ==>
                  ColumnValues(r, "close") == ColumnValues(rows, "close")
                  && forall k :: 0 <= k < |rows| ==> Reading(r[k], SmaName(w)) == SmaAt(ColumnValues(rows, "close"), w, k))
  {
    SmaFrame(rows, w, "close");
    if 0 < w && |rows| > 0 && SmaName(w) !in rows[0].indicators {
      SmaIfMissingCloses(rows, w);
      SmaIfMissingValues(rows, w);
    }
  }

  lemma SmaIfMissingCloses(rows: seq<Record>, w: nat)
    requires 0 < w && |rows| > 0 && SmaName(w) !in rows[0].indicators
    ensures ColumnValues(SmaIfMissing(rows, w), "close") == ColumnValues(rows, "close")
  {
    var r := SmaEffect(rows, w, "close").rows;
    SmaFrame(rows, w, "close");
    OnlyWritesSameFields(rows, r, {SmaName(w)}, false);
    ColumnValuesSameFields(rows, r, "close");
  }

  lemma SmaIfMissingValues(rows: seq<Record>, w: nat)
    requires 0 < w && |rows| > 0 && SmaName(w) !in rows[0].indicators
    ensures |SmaIfMissing(rows, w)| == |rows|
    ensures forall k :: 0 <= k < |rows| ==> Reading(SmaIfMissing(rows, w)[k], SmaName(w)) == SmaAt(ColumnValues(rows, "close"), w, k)
  {
    var r := SmaEffect(rows, w, "close").rows;
    forall k | 0 <= k < |rows| ensures Reading(r[k], SmaName(w)) == SmaAt(ColumnValues(rows, "close"), w, k) {
      SmaBar(rows, w, "close", k);
    }
  }

  /** The preparation adds at most the two SMA keys. */
  lemma CrossoverPreparedFrame(rows: seq<Record>, fast: nat, slow: nat)
    ensures OnlyWrites(rows, CrossoverPrepared(rows, fast, slow), {SmaName(fast), SmaName(slow)}, false)
  {
    var r1 := SmaIfMissing(rows, fast);
    SmaIfMissingFacts(rows, fast);
    SmaIfMissingFacts(r1, slow);
    OnlyWritesTrans(rows, r1, CrossoverPrepared(rows, fast, slow), {SmaName(fast)}, {SmaName(slow)}, false, false);
    assert {SmaName(fast)} + {SmaName(slow)} == {SmaName(fast), SmaName(slow)};
  }

  /** The SMAs the rule reads: computed from `close` where bar 0 lacked them, else taken as stored. */
  lemma CrossoverPreparation(rows: seq<Record>, fast: nat, slow: nat, k: nat)
    requires 0 < fast < slow && k < |rows|
    ensures var p := CrossoverPrepared(rows, fast, slow);
            var closes := ColumnValues(rows, "close");
            && |p| == |rows|
            && (SmaName(fast) !in rows[0].indicators ==> Reading(p[k], SmaName(fast)) == SmaAt(closes, fast, k))
            && (SmaName(slow) !in rows[0].indicators ==> Reading(p[k], SmaName(slow)) == SmaAt(closes, slow, k))
            && (SmaName(fast) in rows[0].indicators && SmaName(slow) in rows[0].indicators ==> p == rows)
  {
    var r1 := SmaIfMissing(rows, fast);
    var p := SmaIfMissing(r1, slow);
    NamesAreKeys(fast, slow);
    SmaIfMissingFacts(rows, fast);
    SmaIfMissingFacts(r1, slow);
    assert ColumnValues(r1, "close") == ColumnValues(rows, "close");
    assert SmaName(slow) in r1[0].indicators <==> SmaName(slow) in rows[0].indicators;
    ReadingKept(r1, p, {SmaName(slow)}, false, k, SmaName(fast));
  }

  /** On a non-empty series with fast < slow every bar ends marked; otherwise nothing changes. */
  lemma CrossoverMarks(rows: seq<Record>, fast: nat, slow: nat, out: string)
    ensures |rows| == 0 || fast >= slow ==> CrossoverEffect(rows, fast, slow, out) == rows
    ensures |CrossoverEffect(rows, fast, slow, out)| == |rows|
    ensures |rows| > 0 && fast < slow ==> forall k :: 0 <= k < |rows| ==> Marked(CrossoverEffect(rows, fast, slow, out)[k], out)
    ensures OnlyWrites(rows, CrossoverEffect(rows, fast, slow, out), {SmaName(fast), SmaName(slow), out}, true)
  {
    if |rows| > 0 && fast < slow {
      var p := CrossoverPrepared(rows, fast, slow);
      var run := CrossRun(p, SmaName(fast), SmaName(slow), out, |p|);
      CrossoverPreparedFrame(rows, fast, slow);
      CrossRunPositions(p, SmaName(fast), SmaName(slow), out, |p|);
      TaggedMarks(p, out, run.sigs);
      OnlyWritesTrans(rows, p, Tagged(p, out, run.sigs), {SmaName(fast), SmaName(slow)}, {out}, false, true);
      assert {SmaName(fast), SmaName(slow)} + {out} == {SmaName(fast), SmaName(slow), out};
    }
  }

  /**
   * The transition table, when the output key is not one of the two SMAs: bar 0
   * and any bar whose own or previous SMAs are missing or NaN get 0; otherwise a
   * golden cross gives +1, a death cross -1, and any other bar repeats the
   * previous bar's signal.
   */
  lemma CrossoverTable(rows: seq<Record>, fast: nat, slow: nat, out: string, k: nat)
    requires |rows| > 0 && fast < slow && k < |rows|
    requires out != SmaName(fast) && out != SmaName(slow)
    ensures var p := CrossoverPrepared(rows, fast, slow);
            var e := CrossoverEffect(rows, fast, slow, out);
            var f, s := SmaName(fast), SmaName(slow);
            && |p| == |rows| && |e| == |rows|
            && (k == 0 || !Defined(p[k], f, s) || !Defined(p[k - 1], f, s) ==> e[k].signal == 0)
            && (k > 0 && Defined(p[k - 1], f, s) && Defined(p[k], f, s) ==>
                  var pf, ps := p[k - 1].indicators[f].v, p[k - 1].indicators[s].v;
                  var cf, cs := p[k].indicators[f].v, p[k].indicators[s].v;
                  && (pf <= ps && cf > cs ==> e[k].signal == 1)
                  && (!(pf <= ps && cf > cs) && pf >= ps && cf < cs ==> e[k].signal == -1)
                  && (!(pf <= ps && cf > cs) && !(pf >= ps && cf < cs) ==> e[k].signal == e[k - 1].signal))
  {
    var p := CrossoverPrepared(rows, fast, slow);
    var f, s := SmaName(fast), SmaName(slow);
    CrossoverPreparedFrame(rows, fast, slow);
    var n := |p|;
    CrossRunPrefix(p, f, s, out, n, k);
    if k > 0 {
      CrossRunPrefix(p, f, s, out, n, k - 1);
      CrossRunPrefix(p, f, s, out, k, k - 1);
      var r := CrossRun(p, f, s, out, k);
      var before := CrossRun(p, f, s, out, k - 1);
      var pb := SetSignal(p[k - 1], out, r.sigs[k - 1]);
      assert Defined(pb, f, s) <==> Defined(p[k - 1], f, s);
      if Defined(p[k - 1], f, s) {
        assert pb.indicators[f] == p[k - 1].indicators[f] && pb.indicators[s] == p[k - 1].indicators[s];
        assert r.held == r.sigs[k - 1];
      }
    }
  }

  // ---------------------------------------------------------------------------
  // Z-score mean reversion

  /** The z-score pass run on `close` cannot fail, so the rule never throws. */
  lemma ZscoreOnCloseSucceeds(rows: seq<Record>, w: nat, sqrt: real -> real)
    ensures ZscoreEffect(rows, w, "close", sqrt).outcome == Success
  {
    if !Degenerate(rows, w) {
      var pre := if RollMeanName(w) !in rows[0].indicators then RollMeanStdEffect(rows, w, "close", sqrt)
                 else Effect(rows, Success);
      forall k | 0 <= k < |pre.rows| ensures ZBar(pre.rows[k], w, "close").Ok? {
      }
      ZFromClosed(pre.rows, w, "close");
    }
  }

  /** The preparation adds at most the z-score and the two rolling statistics it needs. */
  lemma ReversionPreparedFrame(rows: seq<Record>, window: nat, sqrt: real -> real)
    ensures OnlyWrites(rows, ReversionPrepared(rows, window, sqrt), {RollMeanName(window), RollStdName(window), ZName(window)}, false)
    ensures |rows| > 0 && ZName(window) in rows[0].indicators ==> ReversionPrepared(rows, window, sqrt) == rows
  {
    ZscoreFrame(rows, window, "close", sqrt);
  }

  lemma MeanReversionMarks(rows: seq<Record>, window: nat, entry: real, exit: real, out: string, sqrt: real -> real)
    ensures |MeanReversionEffect(rows, window, entry, exit, out, sqrt)| == |rows|
    ensures forall k :: 0 <= k < |rows| ==> Marked(MeanReversionEffect(rows, window, entry, exit, out, sqrt)[k], out)
    ensures OnlyWrites(rows, MeanReversionEffect(rows, window, entry, exit, out, sqrt),
                       {RollMeanName(window), RollStdName(window), ZName(window), out}, true)
  {
    if |rows| > 0 {
      var p := ReversionPrepared(rows, window, sqrt);
      var run := ReversionRun(p, ZName(window), entry, exit, |p|);
      ReversionPreparedFrame(rows, window, sqrt);
      ReversionRunPositions(p, ZName(window), entry, exit, |p|);
      TaggedMarks(p, out, run.sigs);
      var w1 := {RollMeanName(window), RollStdName(window), ZName(window)};
      OnlyWritesTrans(rows, p, Tagged(p, out, run.sigs), w1, {out}, false, true);
      assert w1 + {out} == {RollMeanName(window), RollStdName(window), ZName(window), out};
    }
  }

  /**
   * The transition table. The rule starts flat. A bar with a defined z sets the
   * position it carries: long below -entry, otherwise short above entry,
   * otherwise flat inside ±exit when holding a position, otherwise (the dead zone)
   * unchanged. A bar whose z is missing or NaN gets 0 and passes the carried
   * position on untouched.
   */
  lemma ReversionTable(rows: seq<Record>, window: nat, entry: real, exit: real, out: string, sqrt: real -> real, k: nat)
    requires k < |rows|
    ensures var p := ReversionPrepared(rows, window, sqrt);
            var e := MeanReversionEffect(rows, window, entry, exit, out, sqrt);
            var zn := ZName(window);
            && |p| == |rows| && |e| == |rows|
            && ReversionRun(p, zn, entry, exit, 0).held == 0
            && (!(zn in p[k].indicators && p[k].indicators[zn].Val?) ==>
                  e[k].signal == 0 && ReversionRun(p, zn, entry, exit, k + 1).held == ReversionRun(p, zn, entry, exit, k).held)
            && (zn in p[k].indicators && p[k].indicators[zn].Val? ==>
                  var z, pos := p[k].indicators[zn].v, ReversionRun(p, zn, entry, exit, k).held;
                  && e[k].signal == ReversionRun(p, zn, entry, exit, k + 1).held
                  && (z < -entry ==> e[k].signal == 1)
                  && (-entry <= z && z > entry ==> e[k].signal == -1)
                  && (-entry <= z <= entry && Abs(z) < exit && pos != 0 ==> e[k].signal == 0)
                  && (-entry <= z <= entry && !(Abs(z) < exit && pos != 0) ==> e[k].signal == pos))
  {
    var p := ReversionPrepared(rows, window, sqrt);
    ReversionPreparedFrame(rows, window, sqrt);
    ReversionRunPrefix(p, ZName(window), entry, exit, |p|, k);
  }

  // ---------------------------------------------------------------------------
  // Momentum

  /**
   * Nothing happens on a series of at most `window` bars. Otherwise the rule
   * fails exactly on an unknown column (having written 0 to the first `window`
   * bars); on a known one every bar is marked: 0 in the first `window` bars and
   * where the past price is NaN or at most 1e-10, else +1 above the upper
   * threshold, -1 below the lower one and 0 in between or for a NaN price.
   */
  lemma MomentumBars(rows: seq<Record>, window: nat, upper: real, lower: real, col: string, out: string, k: nat)
    requires k < |rows|
    ensures var e := MomentumEffect(rows, window, upper, lower, col, out);
            && |e.rows| == |rows|
            && OnlyWrites(rows, e.rows, {out}, true)
            && (|rows| <= window ==> e == Effect(rows, Success))
            && (|rows| > window ==> (e.outcome == Success <==> IsColumn(col)))
            && (|rows| > window && !IsColumn(col) ==>
                  e.outcome == Failure(InvalidColumn(col))
                  && (k < window ==> Marked(e.rows[k], out) && e.rows[k].signal == 0)
                  && (k >= window ==> e.rows[k] == rows[k]))
            && (|rows| > window && IsColumn(col) ==>
                  && Marked(e.rows[k], out)
                  && (k < window ==> e.rows[k].signal == 0)
                  && (k >= window ==>
                        var cur := GetColumnValue(rows[k], col).value;
                        var past := GetColumnValue(rows[k - window], col).value;
                        && (!(past.Val? && past.v > Epsilon) ==> e.rows[k].signal == 0)
                        && (past.Val? && past.v > Epsilon && cur.NaN? ==> e.rows[k].signal == 0)
                        && (past.Val? && past.v > Epsilon && cur.Val? ==>
                              var m := (cur.v - past.v) / past.v;
                              && (m > upper ==> e.rows[k].signal == 1)
                              && (m <= upper && m < lower ==> e.rows[k].signal == -1)
                              && (lower <= m <= upper ==> e.rows[k].signal == 0))))
  {
    if |rows| > window {
      if IsColumn(col) {
        var sigs := MomentumSignals(rows, window, upper, lower, col);
        assert forall j :: 0 <= j < |sigs| ==> IsPosition(sigs[j]);
        TaggedMarks(rows, out, sigs);
        if k >= window {
          MomentumAtTable(rows, window, upper, lower, col, k);
        }
      } else {
        TaggedMarks(rows, out, seq(window, j => 0));
      }
    }
  }

  /** The momentum decision of one bar past the warm-up. */
  lemma MomentumAtTable(rows: seq<Record>, window: nat, upper: real, lower: real, col: string, k: nat)
    requires IsColumn(col) && window <= k < |rows|
    ensures var s := MomentumAt(rows, window, upper, lower, col, k);
            var cur := GetColumnValue(rows[k], col).value;
            var past := GetColumnValue(rows[k - window], col).value;
            && (!(past.Val? && past.v > Epsilon) ==> s == 0)
            && (past.Val? && past.v > Epsilon && cur.NaN? ==> s == 0)
            && (past.Val? && past.v > Epsilon && cur.Val? ==>
                  var m := (cur.v - past.v) / past.v;
                  && (m > upper ==> s == 1)
                  && (m <= upper && m < lower ==> s == -1)
                  && (lower <= m <= upper ==> s == 0))
  {
  }

  // ---------------------------------------------------------------------------
  // Bollinger breakout

  lemma {:induction false} FirstBandedFacts(rows: seq<Record>, mean: string, std: string, i: nat)
    requires i <= |rows|
    ensures forall k :: i <= k < FirstBanded(rows, mean, std, i) ==> !(mean in rows[k].indicators && std in rows[k].indicators)
    ensures FirstBanded(rows, mean, std, i) < |rows| ==>
              var j := FirstBanded(rows, mean, std, i);
              mean in rows[j].indicators && std in rows[j].indicators
    decreases |rows| - i
  {
    if i < |rows| && !(mean in rows[i].indicators && std in rows[i].indicators) {
      FirstBandedFacts(rows, mean, std, i + 1);
    }
  }

  /**
   * The rule fails only on an unknown column: in the rolling pass when it runs,
   * otherwise at the first bar holding both band keys. It writes only the two
   * band keys, `out` and the tags.
   */
  lemma BollingerOutcome(rows: seq<Record>, window: nat, numStd: real, col: string, out: string, sqrt: real -> real)
    ensures var e := BollingerEffect(rows, window, numStd, col, out, sqrt);
            && |e.rows| == |rows|
            && (IsColumn(col) ==> e.outcome == Success)
            && (e.outcome.Failure? ==> e.outcome == Failure(InvalidColumn(col)))
            && (!IsColumn(col) ==>
                  (e.outcome == Success <==>
                     |rows| == 0
                     || ((RollMeanName(window) in rows[0].indicators || window == 0)
                         && forall k :: 0 <= k < |rows| ==> !(RollMeanName(window) in rows[k].indicators && RollStdName(window) in rows[k].indicators))))
            && OnlyWrites(rows, e.rows, {RollMeanName(window), RollStdName(window), out}, true)
  {
    if |rows| > 0 {
      var mn, sn := RollMeanName(window), RollStdName(window);
      var pre := BandsPrepared(rows, window, col, sqrt);
      RollMeanStdFrame(rows, window, col, sqrt);
      assert OnlyWrites(rows, pre.rows, {mn, sn}, false);
      if pre.outcome.Success? {
        var p := pre.rows;
        var j := if IsColumn(col) then |p| else FirstBanded(p, mn, sn, 0);
        var run := BandRun(p, mn, sn, col, numStd, j);
        BandRunPositions(p, mn, sn, col, numStd, j);
        TaggedMarks(p, out, run.sigs);
        OnlyWritesTrans(rows, p, Tagged(p, out, run.sigs), {mn, sn}, {out}, false, true);
        assert {mn, sn} + {out} == {mn, sn, out};
        if !IsColumn(col) {
          assert p == rows;
          FirstBandedFacts(p, mn, sn, 0);
        }
      }
    }
  }

  /**
   * On a known column every bar ends marked. A bar without both band values gets
   * 0 and passes the carried position on. With both bands defined the position
   * depends on the current bar alone when the price is a number: +1 above
   * mean + k·sd, -1 below mean − k·sd, 0 between them whatever was held before;
   * a NaN price keeps the carried position.
   */
  lemma BollingerBars(rows: seq<Record>, window: nat, numStd: real, col: string, out: string, sqrt: real -> real, k: nat)
    requires IsColumn(col) && k < |rows|
    ensures var p := BandsPrepared(rows, window, col, sqrt).rows;
            var e := BollingerEffect(rows, window, numStd, col, out, sqrt);
            var mn, sn := RollMeanName(window), RollStdName(window);
            && |p| == |rows| && |e.rows| == |rows| && e.outcome == Success
            && Marked(e.rows[k], out)
            && BandRun(p, mn, sn, col, numStd, 0).held == 0
            && (!Defined(p[k], mn, sn) ==>
                  e.rows[k].signal == 0 && BandRun(p, mn, sn, col, numStd, k + 1).held == BandRun(p, mn, sn, col, numStd, k).held)
            && (Defined(p[k], mn, sn) ==>
                  var price := GetColumnValue(rows[k], col).value;
                  var upperBand := p[k].indicators[mn].v + numStd * p[k].indicators[sn].v;
                  var lowerBand := p[k].indicators[mn].v - numStd * p[k].indicators[sn].v;
                  && e.rows[k].signal == BandRun(p, mn, sn, col, numStd, k + 1).held
                  && (price.Val? && price.v > upperBand ==> e.rows[k].signal == 1)
                  && (price.Val? && price.v <= upperBand && price.v < lowerBand ==> e.rows[k].signal == -1)
                  && (price.Val? && lowerBand <= price.v <= upperBand ==> e.rows[k].signal == 0)
                  && (price.NaN? ==> e.rows[k].signal == BandRun(p, mn, sn, col, numStd, k).held))
  {
    var mn, sn := RollMeanName(window), RollStdName(window);
    var p := BandsPrepared(rows, window, col, sqrt).rows;
    RollMeanStdFrame(rows, window, col, sqrt);
    assert OnlyWrites(rows, p, {mn, sn}, false);
    OnlyWritesSameFields(rows, p, {mn, sn}, false);
    ReadSameFields(rows, p, col, k);
    var run := BandRun(p, mn, sn, col, numStd, |p|);
    BandRunPositions(p, mn, sn, col, numStd, |p|);
    BandRunPrefix(p, mn, sn, col, numStd, |p|, k);
    TaggedMarks(p, out, run.sigs);
  }
}
