/**
 * One bar of a time series (one OHLCV row plus the values computed for it), the
 * errors the engines raise, and the field lookup by column name that every
 * engine uses to pick its source values.
 */
module Records {
  import opened Numeric

  /** The exceptions of the core: an unknown column name, an index past the end. */
  datatype Error = InvalidColumn(column: string) | IndexOutOfRange(index: nat)

  datatype Result<T> = Ok(value: T) | Err(error: Error)

  /** How an operation that returns nothing ended: normally or by throwing. */
  datatype Outcome = Success | Failure(error: Error)

  /**
   * A bar: date label, six numeric fields, the indicator map (name to value,
   * NaN meaning "undefined here") and the position tag.
   */
  datatype Record = Record(
    date: string,
    open: Num, high: Num, low: Num, close: Num, adjClose: Num, volume: Num,
    indicators: map<string, Num>,
    signal: int)

  /** A default-constructed record: numeric fields 0.0, no indicators, signal 0. */
  function EmptyRecord(): Record {
    Record("", Val(0.0), Val(0.0), Val(0.0), Val(0.0), Val(0.0), Val(0.0), map[], 0)
  }

  datatype Option<T> = None | Some(value: T)

  /** The six numeric fields a column name can select. */
  datatype Field = Open | High | Low | Close | AdjClose | Volume

  /** The field a column name selects, compared name by name as the lookup does. */
  function ParseColumn(col: string): Option<Field> {
    if col == "open" then Some(Open)
    else if col == "high" then Some(High)
    else if col == "low" then Some(Low)
    else if col == "close" then Some(Close)
    else if col == "adj_close" then Some(AdjClose)
    else if col == "volume" then Some(Volume)
    else None
  }

  predicate IsColumn(col: string) {
    ParseColumn(col).Some?
  }

  function FieldValue(r: Record, f: Field): Num {
    match f
    case Open => r.open
    case High => r.high
    case Low => r.low
    case Close => r.close
    case AdjClose => r.adjClose
    case Volume => r.volume
  }

  /** indicators::get_column_value: the field named by `col`, or InvalidColumn. */
  function GetColumnValue(r: Record, col: string): (res: Result<Num>)
    ensures res.Ok? <==> IsColumn(col)
    ensures !IsColumn(col) ==> res == Err(InvalidColumn(col))
  {
    match ParseColumn(col)
    case Some(f) => Ok(FieldValue(r, f))
    case None => Err(InvalidColumn(col))
  }

  /** Exactly the six names select a field, each its own one. */
  lemma GetColumnValueFields(r: Record, col: string)
    ensures IsColumn(col) <==> col in {"open", "high", "low", "close", "adj_close", "volume"}
    ensures col == "open" ==> GetColumnValue(r, col) == Ok(r.open)
    ensures col == "high" ==> GetColumnValue(r, col) == Ok(r.high)
    ensures col == "low" ==> GetColumnValue(r, col) == Ok(r.low)
    ensures col == "close" ==> GetColumnValue(r, col) == Ok(r.close)
    ensures col == "adj_close" ==> GetColumnValue(r, col) == Ok(r.adjClose)
    ensures col == "volume" ==> GetColumnValue(r, col) == Ok(r.volume)
  {
  }

  /** The values of column `col` down a sequence of bars. */
  function ColumnValues(rows: seq<Record>, col: string): (vs: seq<Num>)
    requires IsColumn(col)
    ensures |vs| == |rows|
    decreases |rows|
  {
    if rows == [] then [] else ColumnValues(rows[..|rows| - 1], col) + [GetColumnValue(rows[|rows| - 1], col).value]
  }

  lemma {:induction false} ColumnValuesAt(rows: seq<Record>, col: string, k: nat)
    requires IsColumn(col) && k < |rows|
    ensures Ok(ColumnValues(rows, col)[k]) == GetColumnValue(rows[k], col)
    decreases |rows|
  {
    if k < |rows| - 1 {
      ColumnValuesAt(rows[..|rows| - 1], col, k);
    }
  }

  /** The values a pass reads from column `col`, as far as it reads them: where the
      lookup succeeds, `vs` holds the field. Handed out with no more than that fact,
      so that the pass's proof does not unfold how the column is assembled. */
  lemma ColumnReads(rows: seq<Record>, col: string) returns (vs: seq<Num>)
    ensures |vs| == |rows|
    ensures forall k :: 0 <= k < |rows| && GetColumnValue(rows[k], col).Ok? ==> vs[k] == GetColumnValue(rows[k], col).value
  {
    if IsColumn(col) {
      vs := ColumnValues(rows, col);
      forall k | 0 <= k < |rows| ensures vs[k] == GetColumnValue(rows[k], col).value {
        ColumnValuesAt(rows, col, k);
      }
    } else {
      vs := seq(|rows|, k => NaN);
    }
  }

  /** Values read successfully from every bar are the column. */
  lemma ColumnReadsAreColumn(rows: seq<Record>, col: string, vs: seq<Num>)
    requires IsColumn(col) && |vs| == |rows|
    requires forall k :: 0 <= k < |rows| && GetColumnValue(rows[k], col).Ok? ==> vs[k] == GetColumnValue(rows[k], col).value
    ensures vs == ColumnValues(rows, col)
  {
    forall k | 0 <= k < |rows| ensures vs[k] == ColumnValues(rows, col)[k] {
      ColumnValuesAt(rows, col, k);
    }
  }

  /** `ts[i].indicators[name] = x`. */
  function SetIndicator(r: Record, name: string, x: Num): Record {
    r.(indicators := r.indicators[name := x])
  }

  /** What every signal rule does to a bar: `indicators[out_col] = s; signal = s`. */
  function SetSignal(r: Record, outCol: string, s: int): Record {
    r.(indicators := r.indicators[outCol := Val(s as real)], signal := s)
  }

  /** The indicator `name` of a bar, NaN when the bar has none. */
  function Reading(r: Record, name: string): Num {
    if name in r.indicators then r.indicators[name] else NaN
  }

  /** Writes `vals[k]` under `name` into bar k. */
  function Annotate(rows: seq<Record>, name: string, vals: seq<Num>): (r: seq<Record>)
    requires |vals| == |rows|
    ensures |r| == |rows|
    decreases |rows|
  {
    if rows == [] then []
    else Annotate(rows[..|rows| - 1], name, vals[..|rows| - 1]) + [SetIndicator(rows[|rows| - 1], name, vals[|rows| - 1])]
  }

  lemma {:induction false} AnnotateAt(rows: seq<Record>, name: string, vals: seq<Num>, k: nat)
    requires |vals| == |rows| && k < |rows|
    ensures Annotate(rows, name, vals)[k] == SetIndicator(rows[k], name, vals[k])
    decreases |rows|
  {
    if k < |rows| - 1 {
      AnnotateAt(rows[..|rows| - 1], name, vals[..|rows| - 1], k);
    }
  }

  /** The series part-way through a pass: the first |vals| bars annotated, the rest as they were. */
  function AnnotatePrefix(rows: seq<Record>, name: string, vals: seq<Num>): (r: seq<Record>)
    requires |vals| <= |rows|
    ensures |r| == |rows|
  {
    Annotate(rows[..|vals|], name, vals) + rows[|vals|..]
  }

  lemma AnnotatePrefixEnds(rows: seq<Record>, name: string, vals: seq<Num>)
    requires |vals| == |rows|
    ensures AnnotatePrefix(rows, name, []) == rows
    ensures AnnotatePrefix(rows, name, vals) == Annotate(rows, name, vals)
  {
    assert rows[..|rows|] == rows;
    assert rows[..0] == [] && rows[0..] == rows;
  }

  /** Writing bar |vals| extends the annotated prefix by one bar. */
  lemma AnnotatePrefixStep(rows: seq<Record>, name: string, vals: seq<Num>, x: Num)
    requires |vals| < |rows|
    ensures AnnotatePrefix(rows, name, vals)[|vals|] == rows[|vals|]
    ensures AnnotatePrefix(rows, name, vals)[|vals| := SetIndicator(rows[|vals|], name, x)] == AnnotatePrefix(rows, name, vals + [x])
  {
    var i := |vals|;
    var vs := vals + [x];
    assert rows[..i + 1][..i] == rows[..i];
    assert vs[..i] == vals;
    assert Annotate(rows[..i + 1], name, vs) == Annotate(rows[..i], name, vals) + [SetIndicator(rows[i], name, x)];
    assert rows[i..] == [rows[i]] + rows[i + 1..];
  }

  /** Annotating the bars before i does not disturb bar i. */
  lemma AnnotatePrefixFrame(rows: seq<Record>, name: string, vals: seq<Num>, r: Record)
    requires |vals| < |rows|
    ensures AnnotatePrefix(rows[|vals| := r], name, vals) == AnnotatePrefix(rows, name, vals)[|vals| := r]
  {
    var i := |vals|;
    assert (rows[i := r])[..i] == rows[..i];
    assert (rows[i := r])[i..] == [r] + rows[i + 1..];
    assert rows[i..] == [rows[i]] + rows[i + 1..];
  }

  /** The state of the series after an operation, and how the operation ended. */
  datatype Effect = Effect(rows: seq<Record>, outcome: Outcome)

  /** `after` differs from `before` only in the indicator keys in `written` (and, if `tags`, the signal). */
  ghost predicate OnlyWrites(before: seq<Record>, after: seq<Record>, written: set<string>, tags: bool) {
    && |after| == |before|
    && forall k :: 0 <= k < |before| ==>
         && after[k].date == before[k].date
         && after[k].open == before[k].open && after[k].high == before[k].high
         && after[k].low == before[k].low && after[k].close == before[k].close
         && after[k].adjClose == before[k].adjClose && after[k].volume == before[k].volume
         && (!tags ==> after[k].signal == before[k].signal)
         && (forall key :: key !in written ==>
               (key in after[k].indicators <==> key in before[k].indicators)
               && (key in before[k].indicators ==> after[k].indicators[key] == before[k].indicators[key]))
  }

  /** Same bars with the same fields: only indicator maps and tags may differ. */
  ghost predicate SameFields(a: seq<Record>, b: seq<Record>) {
    && |a| == |b|
    && forall k :: 0 <= k < |a| ==>
         a[k].date == b[k].date && a[k].open == b[k].open && a[k].high == b[k].high
         && a[k].low == b[k].low && a[k].close == b[k].close
         && a[k].adjClose == b[k].adjClose && a[k].volume == b[k].volume
  }

  /** Every bar written by Annotate is its own bar with `name` set to its value. */
  lemma AnnotateBars(rows: seq<Record>, name: string, vals: seq<Num>)
    requires |vals| == |rows|
    ensures forall k :: 0 <= k < |rows| ==> Annotate(rows, name, vals)[k] == SetIndicator(rows[k], name, vals[k])
  {
    forall k | 0 <= k < |rows| ensures Annotate(rows, name, vals)[k] == SetIndicator(rows[k], name, vals[k]) {
      AnnotateAt(rows, name, vals, k);
    }
  }

  /** Annotating touches only the key `name`, which every bar then holds with its value. */
  lemma AnnotateOnlyWrites(rows: seq<Record>, name: string, vals: seq<Num>)
    requires |vals| == |rows|
    ensures OnlyWrites(rows, Annotate(rows, name, vals), {name}, false)
    ensures forall k :: 0 <= k < |rows| ==>
              name in Annotate(rows, name, vals)[k].indicators && Reading(Annotate(rows, name, vals)[k], name) == vals[k]
  {
    AnnotateBars(rows, name, vals);
  }

  /** Writing the same values under the same key a second time changes nothing. */
  lemma AnnotateTwice(rows: seq<Record>, name: string, vals: seq<Num>)
    requires |vals| == |rows|
    ensures Annotate(Annotate(rows, name, vals), name, vals) == Annotate(rows, name, vals)
  {
    var once := Annotate(rows, name, vals);
    AnnotateBars(rows, name, vals);
    AnnotateBars(once, name, vals);
    forall k | 0 <= k < |rows| ensures Annotate(once, name, vals)[k] == once[k] {
      assert once[k].indicators[name := vals[k]] == once[k].indicators;
    }
  }

  lemma OnlyWritesSameFields(a: seq<Record>, b: seq<Record>, written: set<string>, tags: bool)
    requires OnlyWrites(a, b, written, tags)
    ensures SameFields(a, b)
  {
  }

  /** A key outside the written set reads the same before and after. */
  lemma ReadingKept(before: seq<Record>, after: seq<Record>, written: set<string>, tags: bool, k: nat, key: string)
    requires OnlyWrites(before, after, written, tags) && k < |before| && key !in written
    ensures Reading(after[k], key) == Reading(before[k], key)
  {
  }

  /** Writes compose: the keys written by either step, the tag if either step sets it. */
  lemma OnlyWritesTrans(a: seq<Record>, b: seq<Record>, c: seq<Record>, w1: set<string>, w2: set<string>, t1: bool, t2: bool)
    requires OnlyWrites(a, b, w1, t1) && OnlyWrites(b, c, w2, t2)
    ensures OnlyWrites(a, c, w1 + w2, t1 || t2)
  {
  }

  /** A column read sees only the six numeric fields, which indicator writes leave alone. */
  lemma ColumnValuesSameFields(a: seq<Record>, b: seq<Record>, col: string)
    requires IsColumn(col) && SameFields(a, b)
    ensures ColumnValues(a, col) == ColumnValues(b, col)
  {
    forall k | 0 <= k < |a| ensures ColumnValues(a, col)[k] == ColumnValues(b, col)[k] {
      ColumnValuesAt(a, col, k);
      ColumnValuesAt(b, col, k);
    }
  }

  /** Annotating a series whose bars already hold exactly those values changes nothing. */
  lemma AnnotateHeld(rows: seq<Record>, name: string, vals: seq<Num>)
    requires |vals| == |rows|
    requires forall k :: 0 <= k < |rows| ==> name in rows[k].indicators && rows[k].indicators[name] == vals[k]
    ensures Annotate(rows, name, vals) == rows
  {
    AnnotateBars(rows, name, vals);
    forall k | 0 <= k < |rows| ensures Annotate(rows, name, vals)[k] == rows[k] {
      assert rows[k].indicators[name := vals[k]] == rows[k].indicators;
    }
  }

  /** Bars with the same fields read the same from every column. */
  lemma ReadSameFields(a: seq<Record>, b: seq<Record>, col: string, k: nat)
    requires SameFields(a, b) && k < |a|
    ensures GetColumnValue(a[k], col) == GetColumnValue(b[k], col)
  {
    var x, y := a[k], b[k];
    assert x.open == y.open && x.high == y.high && x.low == y.low;
    assert x.close == y.close && x.adjClose == y.adjClose && x.volume == y.volume;
  }
}
