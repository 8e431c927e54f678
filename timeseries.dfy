/**
 * The in-memory series: an append-only vector of bars with a checked index and
 * column extraction. The indicator and signal engines update its bars in place.
 */
module Series {
  import opened Numeric
  import opened Records

  class TimeSeries {
    var rows: seq<Record>

    constructor ()
      ensures rows == []
    {
      rows := [];
    }

    /** Appends a copy of `r` as the new last bar. */
    method Push(r: Record)
      modifies this
      ensures rows == old(rows) + [r]
      ensures |rows| == |old(rows)| + 1 && rows[|rows| - 1] == r
      ensures forall k :: 0 <= k < |old(rows)| ==> rows[k] == old(rows)[k]
    {
      rows := rows + [r];
    }

    function Size(): (n: nat)
      reads this
      ensures n == |rows|
    {
      |rows|
    }

    predicate Empty()
      reads this
      ensures Empty() <==> Size() == 0
    {
      |rows| == 0
    }

    /** operator[]: the i-th bar, or IndexOutOfRange past the end. */
    function At(i: nat): (r: Result<Record>)
      reads this
      ensures r.Ok? <==> i < Size()
      ensures i < Size() ==> r.value == rows[i]
      ensures i >= Size() ==> r == Err(IndexOutOfRange(i))
    {
      if i >= |rows| then Err(IndexOutOfRange(i)) else Ok(rows[i])
    }

    method GetCloseSeries() returns (result: seq<Num>)
      ensures |result| == |rows|
      ensures forall k :: 0 <= k < |rows| ==> result[k] == rows[k].close
    {
      result := [];
      var i := 0;
      while i < |rows|
        invariant 0 <= i <= |rows|
        invariant |result| == i
        invariant forall k :: 0 <= k < i ==> result[k] == rows[k].close
      {
        result := result + [rows[i].close];
        i := i + 1;
      }
    }

    /**
     * The chosen field of every bar, in order. The column name is checked inside
     * the loop, so an unknown name fails only on a non-empty series.
     */
    method GetColumn(col: string) returns (result: Result<seq<Num>>)
      ensures result.Ok? <==> IsColumn(col) || |rows| == 0
      ensures result.Err? ==> result.error == InvalidColumn(col)
      ensures result.Ok? ==> |result.value| == |rows|
      ensures result.Ok? ==> forall k :: 0 <= k < |rows| ==> Ok(result.value[k]) == GetColumnValue(rows[k], col)
    {
      var out: seq<Num> := [];
      var i := 0;
      while i < |rows|
        invariant 0 <= i <= |rows|
        invariant i > 0 ==> IsColumn(col)
        invariant |out| == i
        invariant forall k :: 0 <= k < i ==> Ok(out[k]) == GetColumnValue(rows[k], col)
      {
        var row := rows[i];
        if col == "open" {
          out := out + [row.open];
        } else if col == "high" {
          out := out + [row.high];
        } else if col == "low" {
          out := out + [row.low];
        } else if col == "close" {
          out := out + [row.close];
        } else if col == "adj_close" {
          out := out + [row.adjClose];
        } else if col == "volume" {
          out := out + [row.volume];
        } else {
          return Err(InvalidColumn(col));
        }
        i := i + 1;
      }
      return Ok(out);
    }

    method Clear()
      modifies this
      ensures rows == [] && Size() == 0 && Empty()
    {
      rows := [];
    }
  }
}
