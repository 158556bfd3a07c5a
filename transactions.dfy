/** The transaction table that every FinanceAI operation takes: one record per row. */
module Transactions {

  /** A cell that may be missing (pandas NaN / None). */
  datatype Option<T> = None | Some(value: T)

  /**
   * One transaction. Dates are day ordinals of the proleptic Gregorian calendar
   * (what `Timestamp.toordinal` gives), amounts are signed (negative = outflow),
   * the category cell may be missing, and `isPredicted` is the integer flag
   * column that the classifier sets to 1.
   */
  datatype Row = Row(date: int, description: string, amount: real, category: Option<string>, isPredicted: int)

  /** The placeholder category that imports assign and that the classifier may overwrite. */
  const MISC: string := "Misc"

  /** The sum of the amounts of all rows. */
  function Total(rows: seq<Row>): real
  {
    if rows == [] then 0.0 else rows[0].amount + Total(rows[1..])
  }

  /** The sum of the amounts of the rows dated `d`. */
  function SumOn(rows: seq<Row>, d: int): real
  {
    if rows == [] then 0.0
    else (if rows[0].date == d then rows[0].amount else 0.0) + SumOn(rows[1..], d)
  }

  /** The sum of the amounts of the rows dated `d` or earlier. */
  function SumUpTo(rows: seq<Row>, d: int): real
  {
    if rows == [] then 0.0
    else (if rows[0].date <= d then rows[0].amount else 0.0) + SumUpTo(rows[1..], d)
  }

  /** The set of dates that occur in the table. */
  function RowDates(rows: seq<Row>): (ds: set<int>)
    ensures forall i :: 0 <= i < |rows| ==> rows[i].date in ds
    ensures forall d :: d in ds ==> exists i :: 0 <= i < |rows| && rows[i].date == d
  {
    set i | 0 <= i < |rows| :: rows[i].date
  }

  /** The latest date of a non-empty table: a reference definition independent of any sorting. */
  function MaxDate(rows: seq<Row>): (m: int)
    requires |rows| > 0
    ensures forall i :: 0 <= i < |rows| ==> rows[i].date <= m
    ensures exists i :: 0 <= i < |rows| && rows[i].date == m
  {
    if |rows| == 1 then rows[0].date
    else
      var rest := MaxDate(rows[1..]);
      if rows[0].date >= rest then rows[0].date else rest
  }

  /** With no row dated after `lo` and up to `hi`, the running sum at `hi` adds only the rows dated `hi`. */
  lemma {:induction false} SumUpToStep(rows: seq<Row>, lo: int, hi: int)
    requires lo < hi
    requires forall i :: 0 <= i < |rows| ==> !(lo < rows[i].date < hi)
    ensures SumUpTo(rows, hi) == SumUpTo(rows, lo) + SumOn(rows, hi)
  {
    if rows != [] {
      SumUpToStep(rows[1..], lo, hi);
    }
  }

  /** No row dated `d` or earlier: the running sum at `d` is zero. */
  lemma {:induction false} SumUpToNone(rows: seq<Row>, d: int)
    requires forall i :: 0 <= i < |rows| ==> d < rows[i].date
    ensures SumUpTo(rows, d) == 0.0
  {
    if rows != [] {
      SumUpToNone(rows[1..], d);
    }
  }

  /** Every row dated `d` or earlier: the running sum at `d` is the total. */
  lemma {:induction false} SumUpToAll(rows: seq<Row>, d: int)
    requires forall i :: 0 <= i < |rows| ==> rows[i].date <= d
    ensures SumUpTo(rows, d) == Total(rows)
  {
    if rows != [] {
      SumUpToAll(rows[1..], d);
    }
  }
}
