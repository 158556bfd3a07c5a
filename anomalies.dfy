/**
 * The anomaly filter of FinanceAI: per-category mean and sample standard deviation of
 * the amounts, and the outflows that lie more than 2.5 standard deviations from their
 * category's mean.
 */
module Anomalies {
  import opened Transactions

  /** The amounts of the rows whose category is `c`, in table order. */
  function AmountsIn(rows: seq<Row>, c: string): seq<real>
  {
    if rows == [] then []
    else (if rows[0].category == Some(c) then [rows[0].amount] else []) + AmountsIn(rows[1..], c)
  }

  function Sum(xs: seq<real>): real
  {
    if xs == [] then 0.0 else xs[0] + Sum(xs[1..])
  }

  /** The sum of the squared deviations of `xs` from `m`. */
  function SquaredDeviation(xs: seq<real>, m: real): real
  {
    if xs == [] then 0.0 else (xs[0] - m) * (xs[0] - m) + SquaredDeviation(xs[1..], m)
  }

  function Mean(xs: seq<real>): real
    requires |xs| > 0
  {
    Sum(xs) / |xs| as real
  }

  /** The sample variance (one degree of freedom removed), the square of pandas' `std`. */
  function SampleVariance(xs: seq<real>): real
    requires |xs| >= 2
  {
    SquaredDeviation(xs, Mean(xs)) / (|xs| - 1) as real
  }

  /**
   * One row of the per-category statistics frame. With a single observation the
   * sample standard deviation is undefined (NaN): `variance` is then `None`.
   */
  datatype Stats = Stats(mean: real, variance: Option<real>)

  function StatsOf(xs: seq<real>): Stats
    requires |xs| > 0
  {
    Stats(Mean(xs), if |xs| >= 2 then Some(SampleVariance(xs)) else None)
  }

  /** The categories the group-by sees: missing categories form no group. */
  function Categories(rows: seq<Row>): (cs: set<string>)
    ensures forall c :: c in cs ==> |AmountsIn(rows, c)| > 0
  {
    forall c | c in set i | 0 <= i < |rows| && rows[i].category.Some? :: rows[i].category.value
      ensures |AmountsIn(rows, c)| > 0
    {
      var i :| 0 <= i < |rows| && rows[i].category == Some(c);
      AmountsInNonEmpty(rows, i);
    }
    set i | 0 <= i < |rows| && rows[i].category.Some? :: rows[i].category.value
  }

  /** The statistics frame: the mean and sample variance of the amounts of each category. */
  function CategoryStats(rows: seq<Row>): (stats: map<string, Stats>)
    ensures forall c :: c in stats <==> exists i :: 0 <= i < |rows| && rows[i].category == Some(c)
    ensures forall c :: c in stats ==> (stats[c].variance.None? <==> |AmountsIn(rows, c)| == 1)
  {
    map c | c in Categories(rows) :: StatsOf(AmountsIn(rows, c))
  }

  /** (2.5 standard deviations) squared, in units of the variance. */
  const Z_LIMIT_SQUARED: real := 6.25

  /** The z-score test without square roots: a positive variance, and a squared deviation above 2.5² variances. */
  predicate ExceedsZLimit(amount: real, mean: real, variance: real)
  {
    variance > 0.0 && (amount - mean) * (amount - mean) > Z_LIMIT_SQUARED * variance
  }

  /**
   * Reference definition of an anomaly, read off the whole table: an outflow whose
   * category has at least two rows and a positive sample variance, and whose squared
   * deviation from the category mean exceeds 6.25 variances.
   */
  predicate Flagged(rows: seq<Row>, r: Row)
  {
    && r.amount < 0.0
    && r.category.Some?
    && var xs := AmountsIn(rows, r.category.value);
       && |xs| >= 2
       && ExceedsZLimit(r.amount, Mean(xs), SampleVariance(xs))
  }

  /** The flagged rows of `part`, in order, judged against the statistics of `all`. */
  function Select(all: seq<Row>, part: seq<Row>): seq<Row>
  {
    if part == [] then []
    else
      var last := part[|part| - 1];
      Select(all, part[..|part| - 1]) + (if Flagged(all, last) then [last] else [])
  }

  /** The anomalies of a table. */
  function AnomaliesOf(rows: seq<Row>): seq<Row>
  {
    Select(rows, rows)
  }

  /**
   * The row loop of the detector: each row whose category has statistics, that is an
   * outflow, whose category's standard deviation is positive and whose z-score exceeds
   * 2.5, is appended to the result.
   */
  method DetectAnomalies(rows: seq<Row>) returns (anomalies: seq<Row>)
    ensures anomalies == AnomaliesOf(rows)
  {
    anomalies := [];
    if |rows| == 0 {
      return;
    }
    var stats := CategoryStats(rows);
    var i := 0;
    while i < |rows|
      invariant 0 <= i <= |rows|
      invariant anomalies == Select(rows, rows[..i])
    {
      var row := rows[i];
      var outlier := false;
      if row.category.Some? && row.category.value in stats {
        var s := stats[row.category.value];
        if row.amount < 0.0 && s.variance.Some? {
          outlier := ExceedsZLimit(row.amount, s.mean, s.variance.value);
        }
      }
      StatsMatchFlagged(rows, row);
      assert outlier == Flagged(rows, row);
      if outlier {
        anomalies := anomalies + [row];
      }
      assert rows[..i + 1][..i] == rows[..i];
      i := i + 1;
    }
    assert rows[..|rows|] == rows;
  }

  /** A row of category `c` contributes to that category's amounts. */
  lemma {:induction false} AmountsInNonEmpty(rows: seq<Row>, i: nat)
    requires i < |rows|
    requires rows[i].category.Some?
    ensures |AmountsIn(rows, rows[i].category.value)| > 0
  {
    if i > 0 {
      AmountsInNonEmpty(rows[1..], i - 1);
    }
  }

  /** The test the loop applies through the statistics frame is the reference definition. */
  lemma StatsMatchFlagged(rows: seq<Row>, r: Row)
    ensures Flagged(rows, r) <==>
      && r.category.Some?
      && r.category.value in CategoryStats(rows)
      && var s := CategoryStats(rows)[r.category.value];
         && r.amount < 0.0
         && s.variance.Some?
         && ExceedsZLimit(r.amount, s.mean, s.variance.value)
  {
    if r.category.Some? && |AmountsIn(rows, r.category.value)| > 0 {
      var c := r.category.value;
      AmountsInHasCategory(rows, c);
      assert c in CategoryStats(rows);
    }
  }

  /** A category with at least one amount is one of the table's categories. */
  lemma {:induction false} AmountsInHasCategory(rows: seq<Row>, c: string)
    requires |AmountsIn(rows, c)| > 0
    ensures c in Categories(rows)
  {
    if rows[0].category == Some(c) {
      assert rows[0].category.value in Categories(rows);
    } else {
      AmountsInHasCategory(rows[1..], c);
      var j :| 0 <= j < |rows[1..]| && rows[1..][j].category == Some(c);
      assert rows[j + 1].category == Some(c);
    }
  }

  /** A row is an anomaly exactly when it is a row of the table that the reference definition flags. */
  lemma {:induction false} SelectMembership(all: seq<Row>, part: seq<Row>, r: Row)
    ensures r in Select(all, part) <==> r in part && Flagged(all, r)
  {
    if part != [] {
      var init := part[..|part| - 1];
      SelectMembership(all, init, r);
      assert part == init + [part[|part| - 1]];
    }
  }

  /** Filtering a concatenation filters each part: the anomalies keep the table's order. */
  lemma {:induction false} SelectAppend(all: seq<Row>, a: seq<Row>, b: seq<Row>)
    ensures Select(all, a + b) == Select(all, a) + Select(all, b)
  {
    if b != [] {
      var init := b[..|b| - 1];
      assert (a + b)[..|a + b| - 1] == a + init;
      assert (a + b)[|a + b| - 1] == b[|b| - 1];
      SelectAppend(all, a, init);
    } else {
      assert a + b == a;
    }
  }

  /**
   * Membership and order of the anomalies: a row is reported exactly when it is an
   * outflow of the table that the reference definition flags, reported rows keep the
   * table's order, and an empty table reports nothing.
   */
  lemma AnomaliesSpec(rows: seq<Row>)
    ensures forall r :: r in AnomaliesOf(rows) <==> r in rows && Flagged(rows, r)
    ensures forall r :: r in AnomaliesOf(rows) ==> r.amount < 0.0
    ensures forall k :: 0 <= k <= |rows| ==>
      AnomaliesOf(rows) == Select(rows, rows[..k]) + Select(rows, rows[k..])
    ensures rows == [] ==> AnomaliesOf(rows) == []
  {
    forall r ensures r in AnomaliesOf(rows) <==> r in rows && Flagged(rows, r) {
      SelectMembership(rows, rows, r);
    }
    forall k | 0 <= k <= |rows|
      ensures AnomaliesOf(rows) == Select(rows, rows[..k]) + Select(rows, rows[k..])
    {
      assert rows == rows[..k] + rows[k..];
      SelectAppend(rows, rows[..k], rows[k..]);
    }
  }

  /** The sum of `n` copies of `a`. */
  lemma {:induction false} SumConstant(xs: seq<real>, a: real)
    requires forall i :: 0 <= i < |xs| ==> xs[i] == a
    ensures Sum(xs) == |xs| as real * a
    ensures SquaredDeviation(xs, a) == 0.0
  {
    if xs != [] {
      SumConstant(xs[1..], a);
    }
  }

  /**
   * Zero-variance guard: when every row of category `c` has the same amount, or the
   * category has a single row, no row of that category is flagged.
   */
  lemma NoSpreadNoAnomaly(rows: seq<Row>, c: string, a: real)
    requires forall i :: 0 <= i < |rows| && rows[i].category == Some(c) ==> rows[i].amount == a
    ensures forall r: Row :: r.category == Some(c) ==> !Flagged(rows, r)
    ensures forall r :: r in AnomaliesOf(rows) ==> r.category != Some(c)
  {
    var xs := AmountsIn(rows, c);
    AmountsInAll(rows, c, a);
    if |xs| >= 2 {
      SumConstant(xs, a);
      assert Mean(xs) == a;
    }
    forall r | r in AnomaliesOf(rows) ensures r.category != Some(c) {
      SelectMembership(rows, rows, r);
    }
  }

  /** Under the premise of NoSpreadNoAnomaly, every amount of `c` is `a`. */
  lemma {:induction false} AmountsInAll(rows: seq<Row>, c: string, a: real)
    requires forall i :: 0 <= i < |rows| && rows[i].category == Some(c) ==> rows[i].amount == a
    ensures forall i :: 0 <= i < |AmountsIn(rows, c)| ==> AmountsIn(rows, c)[i] == a
  {
    if rows != [] {
      AmountsInAll(rows[1..], c, a);
    }
  }

  function Abs(x: real): real
  {
    if x < 0.0 then -x else x
  }

  /**
   * The test on squares is the source's z-score test: for a standard deviation `std`
   * (the square root of the variance), `std > 0` exactly when the variance is positive,
   * and then `|amount - mean| / std > 2.5` exactly when the squared deviation exceeds
   * 6.25 variances.
   */
  lemma ZScoreAsSquares(amount: real, mean: real, std: real)
    requires std >= 0.0
    ensures (std > 0.0 && Abs(amount - mean) / std > 2.5) <==> ExceedsZLimit(amount, mean, std * std)
  {
    if std > 0.0 {
      var d := Abs(amount - mean);
      var t := 2.5 * std;
      assert d * d == (amount - mean) * (amount - mean);
      assert t * t == Z_LIMIT_SQUARED * (std * std);
      var q := d / std;
      assert d == q * std;
      MulMonotone(q, 2.5, std);
      assert q > 2.5 <==> d > t;
      MulMonotone(d, t, t);
      if d > 0.0 {
        MulMonotone(d, t, d);
      }
      assert d > t <==> d * d > t * t;
      MulMonotone(std, 0.0, std);
    } else {
      assert std * std == 0.0;
    }
  }

  /** Multiplying by a positive factor keeps a strict order, and a non-strict one. */
  lemma MulMonotone(x: real, y: real, k: real)
    requires k > 0.0
    ensures x > y ==> x * k > y * k
    ensures x <= y ==> x * k <= y * k
  {
    assert x * k - y * k == (x - y) * k;
  }

  /**
   * The detector on the table of the repository's own test: ten outflows of 10 and one
   * of 1000 in one category. Mean -100, sample variance 89100; only the 1000 outflow
   * lies beyond 2.5 standard deviations.
   */
  lemma TenSmallOneLarge(date: int)
    ensures
      var coffee := Row(date, "Coffee", -10.0, Some("Food"), 0);
      var big := Row(date, "Big Purchase", -1000.0, Some("Food"), 0);
      AnomaliesOf(seq(10, _ => coffee) + [big]) == [big]
  {
    var coffee := Row(date, "Coffee", -10.0, Some("Food"), 0);
    var big := Row(date, "Big Purchase", -1000.0, Some("Food"), 0);
    var normal := seq(10, _ => coffee);
    var rows := normal + [big];
    var xs := AmountsIn(rows, "Food");
    AmountsInEvery(rows, "Food");
    assert xs == seq(10, _ => -10.0) + [-1000.0];
    SumAndDeviationSplit(seq(10, _ => -10.0), -1000.0, -10.0, -100.0);
    assert Mean(xs) == -100.0;
    assert SampleVariance(xs) == 89100.0;
    assert Flagged(rows, big);
    assert !Flagged(rows, coffee);
    NoneSelected(rows, normal);
    SelectAppend(rows, normal, [big]);
    assert Select(rows, [big]) == Select(rows, []) + [big];
  }

  /** In a table of a single category, that category's amounts are all the amounts. */
  lemma {:induction false} AmountsInEvery(rows: seq<Row>, c: string)
    requires forall i :: 0 <= i < |rows| ==> rows[i].category == Some(c)
    ensures AmountsIn(rows, c) == seq(|rows|, i requires 0 <= i < |rows| => rows[i].amount)
  {
    if rows != [] {
      AmountsInEvery(rows[1..], c);
    }
  }

  /** Sum and squared deviation of `n` copies of `a` followed by `b`. */
  lemma SumAndDeviationSplit(prefix: seq<real>, b: real, a: real, m: real)
    requires forall i :: 0 <= i < |prefix| ==> prefix[i] == a
    ensures Sum(prefix + [b]) == |prefix| as real * a + b
    ensures SquaredDeviation(prefix + [b], m) == |prefix| as real * ((a - m) * (a - m)) + (b - m) * (b - m)
  {
    if prefix == [] {
      assert [] + [b] == [b];
    } else {
      assert (prefix + [b])[1..] == prefix[1..] + [b];
      SumAndDeviationSplit(prefix[1..], b, a, m);
    }
  }

  /** A part with no flagged row selects nothing. */
  lemma {:induction false} NoneSelected(all: seq<Row>, part: seq<Row>)
    requires forall i :: 0 <= i < |part| ==> !Flagged(all, part[i])
    ensures Select(all, part) == []
  {
    if part != [] {
      NoneSelected(all, part[..|part| - 1]);
    }
  }
}
