/**
 * The CSV writer: field escaping, the sorted set of indicator names, and the
 * fields `write` and `write_columns` emit, header first, one list of fields per
 * line. Opening the file, joining fields into text and the stream's rendering
 * of a double are outside the model: a number is rendered by the `show`
 * parameter.
 */
module CsvWriter {
  import opened Numeric
  import opened Records
  import opened Series
  import Indicators
  import CsvReader

  // ---------------------------------------------------------------------------
  // escape_csv_field (src/io.cpp:16-31)

  /** A field needs quoting when it holds a comma, a double quote or a line feed (a CR does not). */
  predicate NeedsQuoting(f: string) {
    ',' in f || '"' in f || '\n' in f
  }

  /** One character as it appears inside a quoted field: a quote is doubled. */
  function Piece(c: char): string {
    if c == '"' then "\"\"" else [c]
  }

  /** The field's characters with every quote doubled. */
  function Doubled(f: string): string
    decreases |f|
  {
    if f == [] then [] else Piece(f[0]) + Doubled(f[1..])
  }

  /** The escaped form of a field. */
  function Escape(f: string): (r: string)
    ensures !NeedsQuoting(f) ==> r == f
    ensures NeedsQuoting(f) ==> |r| >= 2 && r[0] == '"' && r[|r| - 1] == '"'
  {
    if NeedsQuoting(f) then "\"" + Doubled(f) + "\"" else f
  }

  /** Reading a quoted field back: a doubled quote stands for one quote. */
  function Undoubled(s: string): string
    decreases |s|
  {
    if s == [] then []
    else if |s| >= 2 && s[0] == '"' && s[1] == '"' then "\"" + Undoubled(s[2..])
    else [s[0]] + Undoubled(s[1..])
  }

  /** The inverse of escaping: a field wrapped in quotes loses them and its doubled quotes. */
  function Unescape(s: string): string {
    if |s| >= 2 && s[0] == '"' && s[|s| - 1] == '"' then Undoubled(s[1..|s| - 1]) else s
  }

  lemma {:induction false} DoubledAppend(f: string, c: char)
    ensures Doubled(f + [c]) == Doubled(f) + Piece(c)
    decreases |f|
  {
    if f != [] {
      assert (f + [c])[1..] == f[1..] + [c];
      DoubledAppend(f[1..], c);
    } else {
      assert [c][1..] == [];
    }
  }

  lemma {:induction false} DoubledLength(f: string)
    ensures |Doubled(f)| == |f| + CsvReader.CountChar(f, '"')
    decreases |f|
  {
    if f != [] {
      var init := f[..|f| - 1];
      DoubledLength(init);
      assert f == init + [f[|f| - 1]];
      DoubledAppend(init, f[|f| - 1]);
    }
  }

  lemma {:induction false} UndoubledOfDoubled(f: string)
    ensures Undoubled(Doubled(f)) == f
    decreases |f|
  {
    if f != [] {
      UndoubledOfDoubled(f[1..]);
      var d := Doubled(f);
      if f[0] == '"' {
        assert d[2..] == Doubled(f[1..]);
      } else {
        assert d[1..] == Doubled(f[1..]);
      }
    }
  }

  /**
   * Escaping leaves a plain field alone; a field that needs it is quoted with every
   * inner quote doubled, grows by two plus its number of quotes, and unescaping
   * gives the field back.
   */
  lemma EscapeFacts(f: string)
    ensures NeedsQuoting(f) ==> Escape(f) == "\"" + Doubled(f) + "\""
    ensures NeedsQuoting(f) ==> |Escape(f)| == |f| + 2 + CsvReader.CountChar(f, '"')
    ensures Unescape(Escape(f)) == f
  {
    if NeedsQuoting(f) {
      DoubledLength(f);
      var r := Escape(f);
      assert r[1..|r| - 1] == Doubled(f);
      UndoubledOfDoubled(f);
    } else if |f| >= 2 {
      assert f[0] != '"';
    }
  }

  /** The escaping loop: copy the field, a quote as two, between a pair of quotes. */
  method EscapeCsvField(field: string) returns (r: string)
    ensures r == Escape(field)
  {
    if ',' in field || '"' in field || '\n' in field {
      var escaped := "\"";
      var i := 0;
      while i < |field|
        invariant 0 <= i <= |field|
        invariant escaped == "\"" + Doubled(field[..i])
      {
        var c := field[i];
        assert field[..i + 1] == field[..i] + [c];
        DoubledAppend(field[..i], c);
        if c == '"' {
          escaped := escaped + "\"\"";
        } else {
          escaped := escaped + [c];
        }
        i := i + 1;
      }
      assert field[..i] == field;
      r := escaped + "\"";
    } else {
      r := field;
    }
  }

  // ---------------------------------------------------------------------------
  // collect_indicator_names (src/io.cpp:33-43)

  /** std::string's operator<: lexicographic by character, a proper prefix first. */
  function LexLess(a: string, b: string): bool
    decreases |a|
  {
    if a == [] then b != []
    else if b == [] then false
    else if a[0] != b[0] then a[0] < b[0]
    else LexLess(a[1..], b[1..])
  }

  lemma {:induction false} LexLessIrreflexive(a: string)
    ensures !LexLess(a, a)
    decreases |a|
  {
    if a != [] {
      LexLessIrreflexive(a[1..]);
    }
  }

  lemma {:induction false} LexLessTransitive(a: string, b: string, c: string)
    requires LexLess(a, b) && LexLess(b, c)
    ensures LexLess(a, c)
    decreases |a|
  {
    if a != [] && a[0] == b[0] && b[0] == c[0] {
      LexLessTransitive(a[1..], b[1..], c[1..]);
    }
  }

  lemma {:induction false} LexLessTotal(a: string, b: string)
    requires a != b
    ensures LexLess(a, b) || LexLess(b, a)
    decreases |a|
  {
    if a != [] && b != [] && a[0] == b[0] {
      assert a == [a[0]] + a[1..] && b == [b[0]] + b[1..];
      LexLessTotal(a[1..], b[1..]);
    }
  }

  /** In increasing order, each name once: the iteration order of a std::set. */
  predicate StrictlySorted(s: seq<string>) {
    forall i, j :: 0 <= i < j < |s| ==> LexLess(s[i], s[j])
  }

  /** A strictly sorted list holds no name twice. */
  lemma StrictlySortedDistinct(s: seq<string>)
    requires StrictlySorted(s)
    ensures forall i, j :: 0 <= i < |s| && 0 <= j < |s| && i != j ==> s[i] != s[j]
  {
    forall i, j | 0 <= i < |s| && 0 <= j < |s| && i != j ensures s[i] != s[j] {
      if i < j {
        LexLessIrreflexive(s[i]);
      } else {
        LexLessIrreflexive(s[j]);
      }
    }
  }

  /** std::set::insert on the set's ordered contents. */
  function SetInsert(s: seq<string>, k: string): (r: seq<string>)
    requires StrictlySorted(s)
    ensures StrictlySorted(r)
    ensures forall x :: x in r <==> x in s || x == k
    decreases |s|
  {
    if s == [] then [k]
    else if k == s[0] then s
    else if LexLess(k, s[0]) then
      assert forall j :: 0 < j < |s| ==> LexLess(k, s[j]) by {
        forall j | 0 < j < |s| ensures LexLess(k, s[j]) {
          LexLessTransitive(k, s[0], s[j]);
        }
      }
      [k] + s
    else
      var t := SetInsert(s[1..], k);
      assert LexLess(s[0], k) by {
        LexLessTotal(s[0], k);
      }
      assert forall x :: x in s[1..] ==> LexLess(s[0], x);
      [s[0]] + t
  }

  /** The name is a key of some bar's indicator map. */
  ghost predicate InSomeBar(rows: seq<Record>, x: string) {
    exists j :: 0 <= j < |rows| && x in rows[j].indicators
  }

  lemma InSomeBarStep(rows: seq<Record>, i: nat, x: string)
    requires i < |rows|
    ensures InSomeBar(rows[..i + 1], x) <==> InSomeBar(rows[..i], x) || x in rows[i].indicators
  {
    if x in rows[i].indicators {
      assert rows[..i + 1][i] == rows[i];
    }
    if InSomeBar(rows[..i + 1], x) && x !in rows[i].indicators {
      var j :| 0 <= j < i + 1 && x in rows[..i + 1][j].indicators;
      assert rows[..i][j] == rows[j];
    }
    if InSomeBar(rows[..i], x) {
      var j :| 0 <= j < i && x in rows[..i][j].indicators;
      assert rows[..i + 1][j] == rows[j];
    }
  }

  /** The names of every indicator present on any bar, increasing and each once. */
  method CollectIndicatorNames(ts: TimeSeries) returns (names: seq<string>)
    ensures StrictlySorted(names)
    ensures forall x :: x in names <==> InSomeBar(ts.rows, x)
  {
    var acc: seq<string> := [];
    var i := 0;
    while i < |ts.rows|
      invariant 0 <= i <= |ts.rows|
      invariant StrictlySorted(acc)
      invariant forall x :: x in acc <==> InSomeBar(ts.rows[..i], x)
    {
      var r := ts.rows[i];
      var keys := r.indicators.Keys;
      while keys != {}
        invariant keys <= r.indicators.Keys
        invariant StrictlySorted(acc)
        invariant forall x :: x in acc <==> InSomeBar(ts.rows[..i], x) || x in r.indicators.Keys - keys
        decreases keys
      {
        var k :| k in keys;
        acc := SetInsert(acc, k);
        keys := keys - {k};
      }
      forall x ensures x in acc <==> InSomeBar(ts.rows[..i + 1], x) {
        InSomeBarStep(ts.rows, i, x);
      }
      i := i + 1;
    }
    assert ts.rows[..i] == ts.rows;
    names := acc;
  }

  // ---------------------------------------------------------------------------
  // The fields of write (src/io.cpp:45-97) and write_columns (src/io.cpp:99-145)

  /** The eight fixed columns that open every header of `write`. */
  const FixedHeader: seq<string> := ["Date", "Open", "High", "Low", "Close", "Adj Close", "Volume", "Signal"]

  /** An int as a stream prints it. */
  function IntToString(i: int): string {
    if i < 0 then "-" + Indicators.NatToString(-i) else Indicators.NatToString(i)
  }

  /** An indicator's field: its rendering when present and a number, else the token NaN. */
  function IndicatorCell(r: Record, name: string, show: Num -> string): string {
    if name in r.indicators && r.indicators[name].Val? then show(r.indicators[name]) else "NaN"
  }

  /** The eight fixed fields of a bar, in header order. */
  function FixedCells(r: Record, show: Num -> string): seq<string> {
    [Escape(r.date), show(r.open), show(r.high), show(r.low), show(r.close),
     show(r.adjClose), show(r.volume), IntToString(r.signal)]
  }

  /** The indicators `write` emits: the explicit list when there is one, else every name present. */
  function ChosenIndicators(collected: seq<string>, extraCols: seq<string>): (inds: seq<string>)
    ensures |extraCols| > 0 ==> inds == extraCols
    ensures |extraCols| == 0 ==> inds == collected
  {
    if |extraCols| > 0 then extraCols else collected
  }

  /** The fields of one bar as `write` lays them out for the given indicators. */
  function WriteRow(r: Record, inds: seq<string>, show: Num -> string): (row: seq<string>)
    ensures |row| == |FixedHeader| + |inds|
  {
    FixedCells(r, show) + seq(|inds|, j requires 0 <= j < |inds| => IndicatorCell(r, inds[j], show))
  }

  /**
   * The lines `write` emits as fields: the header, then per bar its fixed fields
   * and one field per chosen indicator.
   */
  method Write(ts: TimeSeries, extraCols: seq<string>, show: Num -> string) returns (lines: seq<seq<string>>)
    ensures |lines| == |ts.rows| + 1 && |lines[0]| >= 8
    ensures lines[0][..8] == FixedHeader
    ensures |extraCols| > 0 ==> lines[0] == FixedHeader + extraCols
    ensures |extraCols| == 0 ==>
              StrictlySorted(lines[0][8..]) && (forall x :: x in lines[0][8..] <==> InSomeBar(ts.rows, x))
    ensures forall k :: 0 < k < |lines| ==> |lines[k]| == |lines[0]|
    ensures forall k :: 0 <= k < |ts.rows| ==> lines[k + 1] == WriteRow(ts.rows[k], lines[0][8..], show)
  {
    var collected := CollectIndicatorNames(ts);
    var indicators := ChosenIndicators(collected, extraCols);
    var header := WriteHeader(indicators);
    lines := [header];
    var i := 0;
    while i < |ts.rows|
      invariant 0 <= i <= |ts.rows|
      invariant |lines| == i + 1 && lines[0] == header
      invariant forall k :: 0 <= k < i ==> lines[k + 1] == WriteRow(ts.rows[k], indicators, show)
    {
      var row := WriteBar(ts.rows[i], indicators, show);
      lines := lines + [row];
      i := i + 1;
    }
    assert header[8..] == indicators;
    assert forall k :: 0 < k < |lines| ==> lines[k] == WriteRow(ts.rows[k - 1], indicators, show);
  }

  /** The header loop of `write`: the fixed names, then each chosen indicator. */
  method WriteHeader(indicators: seq<string>) returns (header: seq<string>)
    ensures header == FixedHeader + indicators
  {
    header := FixedHeader;
    var m := 0;
    while m < |indicators|
      invariant 0 <= m <= |indicators|
      invariant header == FixedHeader + indicators[..m]
    {
      assert indicators[..m + 1] == indicators[..m] + [indicators[m]];
      header := header + [indicators[m]];
      m := m + 1;
    }
    assert indicators[..m] == indicators;
  }

  /** The row loop of `write` for one bar. */
  method WriteBar(r: Record, indicators: seq<string>, show: Num -> string) returns (row: seq<string>)
    ensures row == WriteRow(r, indicators, show)
  {
    var escapedDate := EscapeCsvField(r.date);
    row := [escapedDate, show(r.open), show(r.high), show(r.low), show(r.close),
            show(r.adjClose), show(r.volume), IntToString(r.signal)];
    var j := 0;
    while j < |indicators|
      invariant 0 <= j <= |indicators|
      invariant row == FixedCells(r, show) + seq(j, q requires 0 <= q < j => IndicatorCell(r, indicators[q], show))
    {
      var name := indicators[j];
      if name in r.indicators && r.indicators[name].Val? {
        row := row + [show(r.indicators[name])];
      } else {
        row := row + ["NaN"];
      }
      j := j + 1;
    }
  }

  /** One field of write_columns: a fixed column by its name, anything else as an indicator. */
  function ColumnCell(r: Record, col: string, show: Num -> string): string {
    if col == "Date" then Escape(r.date)
    else if col == "Open" then show(r.open)
    else if col == "High" then show(r.high)
    else if col == "Low" then show(r.low)
    else if col == "Close" then show(r.close)
    else if col == "Adj Close" then show(r.adjClose)
    else if col == "Volume" then show(r.volume)
    else if col == "Signal" then IntToString(r.signal)
    else IndicatorCell(r, col, show)
  }

  /** The fields of one bar as `write_columns` lays them out. */
  function ColumnsRow(r: Record, columns: seq<string>, show: Num -> string): seq<string> {
    seq(|columns|, j requires 0 <= j < |columns| => ColumnCell(r, columns[j], show))
  }

  /** The lines `write_columns` emits as fields: the given header, then one field per column per bar. */
  method WriteColumns(ts: TimeSeries, columns: seq<string>, show: Num -> string) returns (lines: seq<seq<string>>)
    ensures |lines| == |ts.rows| + 1 && lines[0] == columns
    ensures forall k :: 0 <= k < |ts.rows| ==> lines[k + 1] == ColumnsRow(ts.rows[k], columns, show)
  {
    lines := [columns];
    var i := 0;
    while i < |ts.rows|
      invariant 0 <= i <= |ts.rows|
      invariant |lines| == i + 1 && lines[0] == columns
      invariant forall k :: 0 <= k < i ==> lines[k + 1] == ColumnsRow(ts.rows[k], columns, show)
    {
      var r := ts.rows[i];
      var row: seq<string> := [];
      var j := 0;
      while j < |columns|
        invariant 0 <= j <= |columns|
        invariant row == seq(j, q requires 0 <= q < j => ColumnCell(r, columns[q], show))
      {
        var col := columns[j];
        var cell: string;
        if col == "Date" {
          cell := EscapeCsvField(r.date);
        } else if col == "Open" {
          cell := show(r.open);
        } else if col == "High" {
          cell := show(r.high);
        } else if col == "Low" {
          cell := show(r.low);
        } else if col == "Close" {
          cell := show(r.close);
        } else if col == "Adj Close" {
          cell := show(r.adjClose);
        } else if col == "Volume" {
          cell := show(r.volume);
        } else if col == "Signal" {
          cell := IntToString(r.signal);
        } else if col in r.indicators && r.indicators[col].Val? {
          cell := show(r.indicators[col]);
        } else {
          cell := "NaN";
        }
        row := row + [cell];
        j := j + 1;
      }
      lines := lines + [row];
      i := i + 1;
    }
  }

  // ---------------------------------------------------------------------------
  // How the two writers relate, and reading a header back

  /**
   * Given `write`'s own header, write_columns lays a bar out exactly as `write` does,
   * as long as no indicator is named like a fixed column: the fixed fields sit in
   * the same places and an indicator missing or NaN is the token NaN in both.
   */
  lemma WriteColumnsOfHeaderIsWriteRow(r: Record, inds: seq<string>, show: Num -> string)
    requires forall j :: 0 <= j < |inds| ==> inds[j] !in FixedHeader
    ensures ColumnsRow(r, FixedHeader + inds, show) == WriteRow(r, inds, show)
  {
    var h := FixedHeader + inds;
    var lhs := ColumnsRow(r, h, show);
    var rhs := WriteRow(r, inds, show);
    forall j | 0 <= j < 8 + |inds| ensures lhs[j] == rhs[j] {
      if j >= 8 {
        assert h[j] == inds[j - 8] && h[j] !in FixedHeader;
      }
    }
  }

  /** An indicator missing from a bar or holding NaN is written as NaN by both writers. */
  lemma MissingIsNaN(r: Record, name: string, show: Num -> string)
    requires name !in r.indicators || r.indicators[name].NaN?
    ensures IndicatorCell(r, name, show) == "NaN"
    ensures name !in FixedHeader ==> ColumnCell(r, name, show) == "NaN"
  {
  }

  lemma FixedHeaderHasNoComma()
    ensures forall j :: 0 <= j < |FixedHeader| ==> ',' !in FixedHeader[j]
  {
    assert ',' !in "Date" && ',' !in "Open" && ',' !in "High" && ',' !in "Low";
    assert ',' !in "Close" && ',' !in "Adj Close" && ',' !in "Volume" && ',' !in "Signal";
  }

  /** A header whose names hold no comma splits back, on the reader's side, into those names. */
  lemma HeaderReadsBack(inds: seq<string>)
    requires forall j :: 0 <= j < |inds| ==> ',' !in inds[j]
    ensures CsvReader.SplitFields(CsvReader.Join(FixedHeader + inds, ','), ',') == FixedHeader + inds
  {
    var h := FixedHeader + inds;
    FixedHeaderHasNoComma();
    forall j | 0 <= j < |h| ensures ',' !in h[j] {
      if j >= 8 {
        assert h[j] == inds[j - 8];
      } else {
        assert h[j] == FixedHeader[j];
      }
    }
    CsvReader.SplitOfJoin(h, ',');
  }
}
