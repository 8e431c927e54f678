/**
 * The CSV reader's line handling: whitespace trimming, the delimiter split, the
 * safe number conversion, the row validation and the loop that turns the lines
 * of a file into bars. The file itself is given as its sequence of lines, and
 * the library conversion `std::stod` as a parameter that either yields a value
 * or rejects its input.
 */
module CsvReader {
  import opened Numeric
  import opened Records
  import opened Series

  // ---------------------------------------------------------------------------
  // trim (src/csv_reader.cpp:35-40)

  /** The characters trim removes: space, tab, CR and LF. */
  predicate IsSpace(c: char) {
    c == ' ' || c == '\t' || c == '\r' || c == '\n'
  }

  predicate AllSpace(s: string) {
    forall k :: 0 <= k < |s| ==> IsSpace(s[k])
  }

  /** find_first_not_of from position i: the first non-space index, |s| standing for npos. */
  function FindFirstNotSpace(s: string, i: nat): (j: nat)
    requires i <= |s|
    ensures i <= j <= |s|
    ensures AllSpace(s[i..j]) && (j < |s| ==> !IsSpace(s[j]))
    decreases |s| - i
  {
    if i == |s| || !IsSpace(s[i]) then i
    else
      var j := FindFirstNotSpace(s, i + 1);
      assert forall k :: 0 <= k < j - i ==> s[i..j][k] == s[i + k];
      j
  }

  /** find_last_not_of below n, as one past the last non-space index (0 when there is none). */
  function FindLastNotSpace(s: string, n: nat): (j: nat)
    requires n <= |s|
    ensures j <= n
    ensures AllSpace(s[j..n]) && (j > 0 ==> !IsSpace(s[j - 1]))
  {
    if n == 0 || !IsSpace(s[n - 1]) then n
    else
      var j := FindLastNotSpace(s, n - 1);
      assert forall k :: 0 <= k < n - j ==> s[j..n][k] == s[j + k];
      j
  }

  /** The string without its leading and trailing whitespace; "" when it is all whitespace. */
  function Trim(s: string): (r: string)
    ensures r == "" <==> AllSpace(s)
    ensures r != "" ==> !IsSpace(r[0]) && !IsSpace(r[|r| - 1])
  {
    var first := FindFirstNotSpace(s, 0);
    if first == |s| then ""
    else
      var end := FindLastNotSpace(s, |s|);
      assert forall k :: end <= k < |s| ==> s[k] == s[end..|s|][k - end];
      assert first < end;
      assert !AllSpace(s) by {
        assert !IsSpace(s[first]);
      }
      s[first..end]
  }

  /** Trim cuts a whitespace prefix and a whitespace suffix and nothing else. */
  lemma TrimParts(s: string) returns (a: nat, b: nat)
    ensures a <= b <= |s| && Trim(s) == s[a..b]
    ensures AllSpace(s[..a]) && AllSpace(s[b..])
  {
    var first := FindFirstNotSpace(s, 0);
    if first == |s| {
      a, b := 0, 0;
    } else {
      a, b := first, FindLastNotSpace(s, |s|);
      assert s[..a] == s[0..a];
    }
  }

  /** find_first_not_of lands on the first non-space at or after i. */
  lemma {:induction false} FirstNotSpaceAt(s: string, i: nat, j: nat)
    requires i <= j < |s| && !IsSpace(s[j])
    requires forall k :: i <= k < j ==> IsSpace(s[k])
    ensures FindFirstNotSpace(s, i) == j
    decreases j - i
  {
    if i < j {
      FirstNotSpaceAt(s, i + 1, j);
    }
  }

  /** find_last_not_of lands just past the last non-space below n. */
  lemma {:induction false} LastNotSpaceAt(s: string, n: nat, j: nat)
    requires 0 < j <= n <= |s| && !IsSpace(s[j - 1])
    requires forall k :: j <= k < n ==> IsSpace(s[k])
    ensures FindLastNotSpace(s, n) == j
    decreases n - j
  {
    if j < n {
      LastNotSpaceAt(s, n - 1, j);
    }
  }

  /** Conversely, padding a trimmed string with whitespace on both sides trims back to it. */
  lemma TrimOfPadded(x: string, t: string, y: string)
    requires AllSpace(x) && AllSpace(y)
    requires t == "" || (!IsSpace(t[0]) && !IsSpace(t[|t| - 1]))
    ensures Trim(x + t + y) == t
  {
    var s := x + t + y;
    if t == "" {
      assert AllSpace(s) by {
        forall k | 0 <= k < |s| ensures IsSpace(s[k]) {
          if k < |x| {
            assert s[k] == x[k];
          } else {
            assert s[k] == y[k - |x|];
          }
        }
      }
    } else {
      assert forall k :: 0 <= k < |x| ==> s[k] == x[k];
      assert forall k :: |x| + |t| <= k < |s| ==> s[k] == y[k - |x| - |t|];
      assert s[|x|] == t[0] && s[|x| + |t| - 1] == t[|t| - 1];
      FirstNotSpaceAt(s, 0, |x|);
      LastNotSpaceAt(s, |s|, |x| + |t|);
      assert s[|x|..|x| + |t|] == t;
    }
  }

  lemma TrimIdempotent(s: string)
    ensures Trim(Trim(s)) == Trim(s)
  {
    TrimOfPadded("", Trim(s), "");
    assert "" + Trim(s) + "" == Trim(s);
  }

  // ---------------------------------------------------------------------------
  // split_line_fast (src/csv_reader.cpp:20-33)

  /** The fields of a line between delimiters, built from the left as the loop does. */
  function SplitFields(line: string, d: char): (fs: seq<string>)
    ensures |fs| >= 1
    decreases |line|
  {
    if |line| == 0 then [""]
    else
      var fs := SplitFields(line[..|line| - 1], d);
      var c := line[|line| - 1];
      if c == d then fs + [""]
      else fs[..|fs| - 1] + [fs[|fs| - 1] + [c]]
  }

  /** The fields put back together, the delimiter between each two. */
  function Join(fs: seq<string>, d: char): string
    requires |fs| >= 1
    decreases |fs|
  {
    if |fs| == 1 then fs[0] else Join(fs[..|fs| - 1], d) + [d] + fs[|fs| - 1]
  }

  function CountChar(s: string, d: char): nat
    decreases |s|
  {
    if s == [] then 0 else CountChar(s[..|s| - 1], d) + (if s[|s| - 1] == d then 1 else 0)
  }

  /** Extending the last field by one character extends the joined line by it. */
  lemma JoinExtendLast(fs: seq<string>, d: char, c: char)
    requires |fs| >= 1
    ensures Join(fs[..|fs| - 1] + [fs[|fs| - 1] + [c]], d) == Join(fs, d) + [c]
  {
    var m := |fs|;
    var g := fs[..m - 1] + [fs[m - 1] + [c]];
    if m > 1 {
      assert g[..m - 1] == fs[..m - 1];
      assert Join(g, d) == Join(fs[..m - 1], d) + [d] + (fs[m - 1] + [c]);
    }
  }

  /** split_line_fast returns one field more than there are delimiters, none holding the
      delimiter, and joining them restores the line. */
  lemma {:induction false} SplitFacts(line: string, d: char)
    ensures |SplitFields(line, d)| == CountChar(line, d) + 1
    ensures Join(SplitFields(line, d), d) == line
    ensures forall k :: 0 <= k < |SplitFields(line, d)| ==> d !in SplitFields(line, d)[k]
    decreases |line|
  {
    if |line| > 0 {
      var init := line[..|line| - 1];
      var c := line[|line| - 1];
      var fs := SplitFields(init, d);
      SplitFacts(init, d);
      assert line == init + [c];
      if c == d {
        assert (fs + [""])[..|fs|] == fs;
      } else {
        JoinExtendLast(fs, d, c);
        var g := fs[..|fs| - 1] + [fs[|fs| - 1] + [c]];
        forall k | 0 <= k < |g| ensures d !in g[k] {
          if k == |fs| - 1 {
            assert g[k] == fs[k] + [c];
          } else {
            assert g[k] == fs[k];
          }
        }
      }
    }
  }

  /** A string without the delimiter is a single field. */
  lemma {:induction false} SplitSingle(t: string, d: char)
    requires d !in t
    ensures SplitFields(t, d) == [t]
    decreases |t|
  {
    if |t| > 0 {
      var init := t[..|t| - 1];
      assert d !in init by {
        forall k | 0 <= k < |init| ensures init[k] != d {
          assert init[k] == t[k];
        }
      }
      SplitSingle(init, d);
      assert t == init + [t[|t| - 1]];
    }
  }

  /** A delimiter followed by a delimiter-free tail adds that tail as one more field. */
  lemma {:induction false} SplitAppendField(s: string, t: string, d: char)
    requires d !in t
    ensures SplitFields(s + [d] + t, d) == SplitFields(s, d) + [t]
    decreases |t|
  {
    var line := s + [d] + t;
    if |t| == 0 {
      assert line[..|line| - 1] == s;
    } else {
      var init := t[..|t| - 1];
      var c := t[|t| - 1];
      assert d !in init by {
        forall k | 0 <= k < |init| ensures init[k] != d {
          assert init[k] == t[k];
        }
      }
      SplitAppendField(s, init, d);
      assert line[..|line| - 1] == s + [d] + init;
      assert line[|line| - 1] == c && c != d;
      assert init + [c] == t;
    }
  }

  /** Splitting the join of delimiter-free fields gives the fields back. */
  lemma {:induction false} SplitOfJoin(fs: seq<string>, d: char)
    requires |fs| >= 1 && forall k :: 0 <= k < |fs| ==> d !in fs[k]
    ensures SplitFields(Join(fs, d), d) == fs
    decreases |fs|
  {
    if |fs| == 1 {
      SplitSingle(fs[0], d);
    } else {
      var init := fs[..|fs| - 1];
      SplitOfJoin(init, d);
      SplitAppendField(Join(init, d), fs[|fs| - 1], d);
      assert init + [fs[|fs| - 1]] == fs;
    }
  }

  /** A delimiter closes the current field and opens an empty one. */
  lemma SplitAtDelimiter(line: string, d: char, out: seq<string>, start: nat, i: nat)
    requires start <= i < |line| && line[i] == d
    requires out + [line[start..i]] == SplitFields(line[..i], d)
    ensures (out + [line[start..i]]) + [line[i + 1..i + 1]] == SplitFields(line[..i + 1], d)
  {
    assert line[..i + 1][..i] == line[..i];
    assert line[i + 1..i + 1] == "";
  }

  /** Any other character extends the current field. */
  lemma SplitInsideField(line: string, d: char, out: seq<string>, start: nat, i: nat)
    requires start <= i < |line| && line[i] != d
    requires out + [line[start..i]] == SplitFields(line[..i], d)
    ensures out + [line[start..i + 1]] == SplitFields(line[..i + 1], d)
  {
    assert line[..i + 1][..i] == line[..i];
    var fs := out + [line[start..i]];
    assert fs[..|fs| - 1] == out;
    assert line[start..i] + [line[i]] == line[start..i + 1];
  }

  /** The split loop: a field ends at every delimiter and at the end of the line. */
  method SplitLineFast(line: string, delim: char) returns (out: seq<string>)
    ensures out == SplitFields(line, delim)
  {
    out := [];
    var start := 0;
    var i := 0;
    while i <= |line|
      invariant 0 <= start <= i <= |line| + 1
      invariant i <= |line| ==> out + [line[start..i]] == SplitFields(line[..i], delim)
      invariant i == |line| + 1 ==> out == SplitFields(line, delim)
      decreases |line| + 1 - i
    {
      if i == |line| {
        assert line[..i] == line;
        out := out + [line[start..i]];
        start := i + 1;
      } else if line[i] == delim {
        SplitAtDelimiter(line, delim, out, start, i);
        out := out + [line[start..i]];
        start := i + 1;
      } else {
        SplitInsideField(line, delim, out, start, i);
      }
      i := i + 1;
    }
  }

  // ---------------------------------------------------------------------------
  // safe_stod and parse_record (src/csv_reader.cpp:42-72)

  /** A trimmed, non-empty field converted; NaN when blank or when the converter rejects it. */
  function SafeStod(s: string, stod: string -> Option<Num>): Num {
    var t := Trim(s);
    if t == "" then NaN
    else match stod(t)
      case None => NaN
      case Some(x) => x
  }

  /** Blank or rejected fields give NaN, and whitespace around a field does not matter. */
  lemma SafeStodFacts(s: string, stod: string -> Option<Num>)
    ensures AllSpace(s) ==> SafeStod(s, stod) == NaN
    ensures !AllSpace(s) && stod(Trim(s)).None? ==> SafeStod(s, stod) == NaN
    ensures !AllSpace(s) && stod(Trim(s)).Some? ==> SafeStod(s, stod) == stod(Trim(s)).value
    ensures SafeStod(Trim(s), stod) == SafeStod(s, stod)
  {
    TrimIdempotent(s);
  }

  /** The validation verdict and the record as the out-parameter is left. */
  datatype Parsed = Parsed(valid: bool, record: Record)

  /** None of the six numeric fields is NaN. */
  predicate Complete(r: Record) {
    r.open.Val? && r.high.Val? && r.low.Val? && r.close.Val? && r.adjClose.Val? && r.volume.Val?
  }

  /**
   * parse_record: fewer than seven columns leave the record as it was and fail;
   * otherwise the date and the six numbers are set from columns 0 to 6 and the row
   * is valid exactly when no number is NaN.
   */
  function ParseRecord(columns: seq<string>, r: Record, stod: string -> Option<Num>): (p: Parsed)
    ensures |columns| < 7 ==> p == Parsed(false, r)
    ensures |columns| >= 7 ==>
              && p.record.date == Trim(columns[0])
              && p.record.open == SafeStod(columns[1], stod) && p.record.high == SafeStod(columns[2], stod)
              && p.record.low == SafeStod(columns[3], stod) && p.record.close == SafeStod(columns[4], stod)
              && p.record.adjClose == SafeStod(columns[5], stod) && p.record.volume == SafeStod(columns[6], stod)
              && p.record.indicators == r.indicators && p.record.signal == r.signal
    ensures p.valid <==> |columns| >= 7 && Complete(p.record)
  {
    if |columns| < 7 then Parsed(false, r)
    else
      var rec := r.(date := Trim(columns[0]),
                    open := SafeStod(columns[1], stod), high := SafeStod(columns[2], stod),
                    low := SafeStod(columns[3], stod), close := SafeStod(columns[4], stod),
                    adjClose := SafeStod(columns[5], stod), volume := SafeStod(columns[6], stod));
      var hasNaN := rec.open.NaN? || rec.high.NaN? || rec.low.NaN? || rec.close.NaN? || rec.adjClose.NaN? || rec.volume.NaN?;
      Parsed(!hasNaN, rec)
  }

  // ---------------------------------------------------------------------------
  // The line loop of read_to_timeseries (src/csv_reader.cpp:74-119)

  predicate Blank(line: string) {
    Trim(line) == ""
  }

  /** What one non-blank data line becomes: its parse into a fresh record, an invalid one dated by its first field. */
  function LineRecord(line: string, delim: char, stod: string -> Option<Num>): Parsed {
    var columns := SplitFields(line, delim);
    var p := ParseRecord(columns, EmptyRecord(), stod);
    if p.valid then p else Parsed(false, p.record.(date := if |columns| > 0 then Trim(columns[0]) else ""))
  }

  /** The bars one data line contributes: none when it is blank or, under drop_na, invalid. */
  function Kept(line: string, delim: char, dropNa: bool, stod: string -> Option<Num>): seq<Record> {
    if Blank(line) then []
    else
      var p := LineRecord(line, delim, stod);
      if !p.valid && dropNa then [] else [p.record]
  }

  /** The bars the data lines (those after the header) yield, in order. */
  function DataRecords(lines: seq<string>, delim: char, dropNa: bool, stod: string -> Option<Num>): seq<Record>
    decreases |lines|
  {
    if lines == [] then []
    else DataRecords(lines[..|lines| - 1], delim, dropNa, stod) + Kept(lines[|lines| - 1], delim, dropNa, stod)
  }

  /** The first line is the header and is never interpreted. */
  function ReadRows(lines: seq<string>, delim: char, dropNa: bool, stod: string -> Option<Num>): seq<Record> {
    if lines == [] then [] else DataRecords(lines[1..], delim, dropNa, stod)
  }

  /** The body of the reading loop for one data line: whether a bar is pushed, and which. */
  method ReadLine(line: string, delim: char, dropNa: bool, stod: string -> Option<Num>) returns (keep: bool, record: Record)
    ensures (if keep then [record] else []) == Kept(line, delim, dropNa, stod)
  {
    keep, record := false, EmptyRecord();
    if Trim(line) == "" {
      return;
    }
    var columns := SplitLineFast(line, delim);
    var parsed := ParseRecord(columns, EmptyRecord(), stod);
    if !parsed.valid && dropNa {
      return;
    }
    record := parsed.record;
    if !parsed.valid {
      record := record.(date := if |columns| > 0 then Trim(columns[0]) else "");
    }
    keep := true;
  }

  /** Reading one more data line appends what that line keeps. */
  lemma DataRecordsStep(lines: seq<string>, n: nat, delim: char, dropNa: bool, stod: string -> Option<Num>)
    requires 2 <= n <= |lines|
    ensures DataRecords(lines[1..n], delim, dropNa, stod)
            == (if n == 2 then [] else DataRecords(lines[1..n - 1], delim, dropNa, stod)) + Kept(lines[n - 1], delim, dropNa, stod)
  {
    assert lines[1..n][..n - 2] == lines[1..n - 1];
    assert lines[1..n][n - 2] == lines[n - 1];
    if n == 2 {
      assert lines[1..n - 1] == [];
    }
  }

  /** The reading loop over the file's lines, pushing each kept bar onto a new series. */
  method ReadToTimeSeries(lines: seq<string>, delim: char, dropNa: bool, stod: string -> Option<Num>) returns (ts: TimeSeries)
    ensures fresh(ts)
    ensures ts.rows == ReadRows(lines, delim, dropNa, stod)
  {
    ts := new TimeSeries();
    var isHeader := true;
    var n := 0;
    while n < |lines|
      invariant 0 <= n <= |lines|
      invariant isHeader <==> n == 0
      invariant ts.rows == if n == 0 then [] else DataRecords(lines[1..n], delim, dropNa, stod)
    {
      var line := lines[n];
      n := n + 1;
      if isHeader {
        isHeader := false;
        assert lines[1..n] == [];
        continue;
      }
      DataRecordsStep(lines, n, delim, dropNa, stod);
      var keep, record := ReadLine(line, delim, dropNa, stod);
      if keep {
        ts.Push(record);
      }
    }
    assert n == 0 || lines[1..n] == lines[1..];
  }

  // ---------------------------------------------------------------------------
  // What the reading loop promises

  /** Every bar read from a line is dated by the line's first field, trimmed; a line with fewer
      than six delimiters is never valid and keeps the zero numbers of a fresh record. */
  lemma LineRecordFacts(line: string, delim: char, stod: string -> Option<Num>)
    ensures LineRecord(line, delim, stod).record.date == Trim(SplitFields(line, delim)[0])
    ensures LineRecord(line, delim, stod).valid <==>
              CountChar(line, delim) >= 6 && Complete(LineRecord(line, delim, stod).record)
    ensures CountChar(line, delim) < 6 ==>
              LineRecord(line, delim, stod).record == EmptyRecord().(date := Trim(SplitFields(line, delim)[0]))
    ensures LineRecord(line, delim, stod).record.indicators == map[]
    ensures LineRecord(line, delim, stod).record.signal == 0
  {
    SplitFacts(line, delim);
  }

  lemma {:induction false} DataRecordsAppend(a: seq<string>, b: seq<string>, delim: char, dropNa: bool, stod: string -> Option<Num>)
    ensures DataRecords(a + b, delim, dropNa, stod) == DataRecords(a, delim, dropNa, stod) + DataRecords(b, delim, dropNa, stod)
    decreases |b|
  {
    if b == [] {
      assert a + b == a;
    } else {
      var init := b[..|b| - 1];
      DataRecordsAppend(a, init, delim, dropNa, stod);
      assert (a + b)[..|a + b| - 1] == a + init;
      assert (a + b)[|a + b| - 1] == b[|b| - 1];
    }
  }

  lemma BlankLineKeepsNothing(line: string, delim: char, dropNa: bool, stod: string -> Option<Num>)
    requires Blank(line)
    ensures DataRecords([line], delim, dropNa, stod) == []
  {
    assert [line][..0] == [];
  }

  /** A line that is empty after trimming contributes nothing, wherever it stands. */
  lemma BlankLinesIgnored(a: seq<string>, line: string, c: seq<string>, delim: char, dropNa: bool, stod: string -> Option<Num>)
    requires Blank(line)
    ensures DataRecords(a + [line] + c, delim, dropNa, stod) == DataRecords(a + c, delim, dropNa, stod)
  {
    DataRecordsAppend(a + [line], c, delim, dropNa, stod);
    DataRecordsAppend(a, [line], delim, dropNa, stod);
    DataRecordsAppend(a, c, delim, dropNa, stod);
    BlankLineKeepsNothing(line, delim, dropNa, stod);
  }

  /** With drop_na every bar read has all six numbers. */
  lemma {:induction false} DropNaComplete(lines: seq<string>, delim: char, stod: string -> Option<Num>)
    ensures forall k :: 0 <= k < |DataRecords(lines, delim, true, stod)| ==> Complete(DataRecords(lines, delim, true, stod)[k])
    decreases |lines|
  {
    if lines != [] {
      DropNaComplete(lines[..|lines| - 1], delim, stod);
      LineRecordFacts(lines[|lines| - 1], delim, stod);
    }
  }

  /** The data lines that are not blank, in order. */
  function NonBlank(lines: seq<string>): seq<string>
    decreases |lines|
  {
    if lines == [] then []
    else
      var init := NonBlank(lines[..|lines| - 1]);
      if Blank(lines[|lines| - 1]) then init else init + [lines[|lines| - 1]]
  }

  /** The non-blank data lines that parse as valid rows, in order. */
  function ValidLines(lines: seq<string>, delim: char, stod: string -> Option<Num>): seq<string>
    decreases |lines|
  {
    if lines == [] then []
    else
      var init := ValidLines(lines[..|lines| - 1], delim, stod);
      var line := lines[|lines| - 1];
      if !Blank(line) && LineRecord(line, delim, stod).valid then init + [line] else init
  }

  /** Without drop_na there is one bar per non-blank data line, in line order. */
  lemma {:induction false} KeepAllIsOnePerLine(lines: seq<string>, delim: char, stod: string -> Option<Num>)
    ensures |DataRecords(lines, delim, false, stod)| == |NonBlank(lines)|
    ensures forall k :: 0 <= k < |NonBlank(lines)| ==>
              DataRecords(lines, delim, false, stod)[k] == LineRecord(NonBlank(lines)[k], delim, stod).record
    decreases |lines|
  {
    if lines != [] {
      KeepAllIsOnePerLine(lines[..|lines| - 1], delim, stod);
    }
  }

  /** With drop_na the bars are exactly those of the valid lines, in line order. */
  lemma {:induction false} DropNaIsValidLines(lines: seq<string>, delim: char, stod: string -> Option<Num>)
    ensures DataRecords(lines, delim, true, stod) == DataRecords(ValidLines(lines, delim, stod), delim, false, stod)
    ensures forall k :: 0 <= k < |ValidLines(lines, delim, stod)| ==>
              !Blank(ValidLines(lines, delim, stod)[k]) && LineRecord(ValidLines(lines, delim, stod)[k], delim, stod).valid
    decreases |lines|
  {
    if lines != [] {
      var init := lines[..|lines| - 1];
      var line := lines[|lines| - 1];
      var v := ValidLines(init, delim, stod);
      DropNaIsValidLines(init, delim, stod);
      if !Blank(line) && LineRecord(line, delim, stod).valid {
        assert (v + [line])[..|v|] == v;
      }
    }
  }
}
