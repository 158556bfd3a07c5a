/**
 * The balance forecast of FinanceAI: the historical daily balance series (group by
 * date, sort, cumulative sum), the calendar features, and the future dates at which
 * the fitted regressor is queried.
 */
module Forecast {
  import opened Transactions

  /** One row of the grouped frame: the net amount of one calendar day. */
  datatype DayTotal = DayTotal(date: int, amount: real)

  /** One row of the historical series: a day and the balance at its close. */
  datatype DayBalance = DayBalance(date: int, balance: real)

  /** The three regressor inputs: day ordinal, day of week (Monday = 0) and month. */
  datatype Features = Features(dayOrdinal: int, dayOfWeek: int, month: int)

  /** One training example of the regressor. */
  datatype Sample = Sample(features: Features, balance: real)

  /**
   * A fitted random-forest regressor. The forest is fitted with a fixed seed, so it is
   * determined by its training sample; what it predicts is a parameter of the model.
   */
  datatype Regressor = FittedRegressor(samples: seq<Sample>)

  /** One row of the forecast frame. */
  datatype Prediction = Prediction(date: int, predictedBalance: real)

  /** The horizon used when the caller names none. */
  const DEFAULT_DAYS_FORWARD: int := 30

  ghost predicate Ascending(daily: seq<DayTotal>)
  {
    forall i, j :: 0 <= i < j < |daily| ==> daily[i].date < daily[j].date
  }

  function DayDates(daily: seq<DayTotal>): set<int>
  {
    set i | 0 <= i < |daily| :: daily[i].date
  }

  /** The net amount that the grouped frame records for day `d` (zero when `d` is absent). */
  function AmountOn(daily: seq<DayTotal>, d: int): real
  {
    if daily == [] then 0.0
    else (if daily[0].date == d then daily[0].amount else 0.0) + AmountOn(daily[1..], d)
  }

  /** Adds one transaction to the grouped frame, keeping it sorted by date with one row per date. */
  function AddToDay(daily: seq<DayTotal>, date: int, amount: real): (r: seq<DayTotal>)
    requires Ascending(daily)
    ensures Ascending(r)
    ensures DayDates(r) == DayDates(daily) + {date}
  {
    if daily == [] then
      DayDatesCons(DayTotal(date, amount), []);
      assert [DayTotal(date, amount)] + [] == [DayTotal(date, amount)];
      [DayTotal(date, amount)]
    else
      AscendingTail(daily);
      assert daily == [daily[0]] + daily[1..];
      DayDatesCons(daily[0], daily[1..]);
      if date < daily[0].date then
        var x := DayTotal(date, amount);
        DayDatesCons(x, daily);
        AscendingCons(x, daily);
        [x] + daily
      else if date == daily[0].date then
        var x := DayTotal(date, daily[0].amount + amount);
        DayDatesCons(x, daily[1..]);
        AscendingCons(x, daily[1..]);
        [x] + daily[1..]
      else
        var rest := AddToDay(daily[1..], date, amount);
        DayDatesCons(daily[0], rest);
        AscendingCons(daily[0], rest);
        [daily[0]] + rest
  }

  lemma DayDatesCons(x: DayTotal, rest: seq<DayTotal>)
    ensures DayDates([x] + rest) == {x.date} + DayDates(rest)
  {
    var s := [x] + rest;
    assert s[0] == x;
    forall d | d in DayDates(s) ensures d in {x.date} + DayDates(rest) {
      var i :| 0 <= i < |s| && s[i].date == d;
      if i > 0 { assert rest[i - 1] == s[i]; }
    }
    forall d | d in DayDates(rest) ensures d in DayDates(s) {
      var i :| 0 <= i < |rest| && rest[i].date == d;
      assert s[i + 1] == rest[i];
    }
  }

  /** The tail of a sorted frame is sorted and dated after its head. */
  lemma AscendingTail(daily: seq<DayTotal>)
    requires Ascending(daily)
    requires daily != []
    ensures Ascending(daily[1..])
    ensures forall d :: d in DayDates(daily[1..]) ==> daily[0].date < d
  {
    forall d | d in DayDates(daily[1..]) ensures daily[0].date < d {
      var i :| 0 <= i < |daily[1..]| && daily[1..][i].date == d;
      assert daily[i + 1].date == d;
    }
  }

  /** A row dated before every row of a sorted frame can go in front of it. */
  lemma AscendingCons(x: DayTotal, rest: seq<DayTotal>)
    requires Ascending(rest)
    requires forall d :: d in DayDates(rest) ==> x.date < d
    ensures Ascending([x] + rest)
  {
    var s := [x] + rest;
    forall i, j | 0 <= i < j < |s| ensures s[i].date < s[j].date {
      assert s[j] == rest[j - 1];
      assert rest[j - 1].date in DayDates(rest);
      if i > 0 {
        assert s[i] == rest[i - 1];
      }
    }
  }

  /** Adding a transaction adds its amount to its own date's total and to no other. */
  lemma {:induction false} AddToDayAmount(daily: seq<DayTotal>, date: int, amount: real, d: int)
    requires Ascending(daily)
    ensures AmountOn(AddToDay(daily, date, amount), d) == AmountOn(daily, d) + (if d == date then amount else 0.0)
  {
    var r := AddToDay(daily, date, amount);
    if daily != [] {
      if date < daily[0].date {
        assert r[1..] == daily;
      } else if date == daily[0].date {
        assert r[1..] == daily[1..];
      } else {
        AscendingTail(daily);
        AddToDayAmount(daily[1..], date, amount, d);
        assert r[1..] == AddToDay(daily[1..], date, amount);
      }
    }
  }

  /**
   * The amounts grouped by date: one row per distinct date, in ascending date order,
   * whose dates are those of the table.
   */
  function DailyTotals(rows: seq<Row>): (daily: seq<DayTotal>)
    ensures Ascending(daily)
    ensures DayDates(daily) == RowDates(rows)
  {
    if rows == [] then []
    else
      var daily := AddToDay(DailyTotals(rows[1..]), rows[0].date, rows[0].amount);
      assert RowDates(rows) == RowDates(rows[1..]) + {rows[0].date};
      daily
  }

  /** The grouped frame records, for every date, the sum of that date's amounts. */
  lemma {:induction false} DailyTotalsAmount(rows: seq<Row>, d: int)
    ensures AmountOn(DailyTotals(rows), d) == SumOn(rows, d)
  {
    if rows != [] {
      DailyTotalsAmount(rows[1..], d);
      AddToDayAmount(DailyTotals(rows[1..]), rows[0].date, rows[0].amount, d);
    }
  }

  /** The sum of the first `n` daily amounts. */
  function PrefixTotal(daily: seq<DayTotal>, n: nat): real
    requires n <= |daily|
  {
    if n == 0 then 0.0 else PrefixTotal(daily, n - 1) + daily[n - 1].amount
  }

  /** The cumulative sum of the daily amounts, starting from `opening`. */
  function Cumulate(daily: seq<DayTotal>, opening: real): (r: seq<DayBalance>)
    ensures |r| == |daily|
    ensures forall i :: 0 <= i < |r| ==> r[i].date == daily[i].date
  {
    if daily == [] then []
    else
      var b := opening + daily[0].amount;
      [DayBalance(daily[0].date, b)] + Cumulate(daily[1..], b)
  }

  /** The historical daily balance series. */
  function DailyBalances(rows: seq<Row>): seq<DayBalance>
  {
    Cumulate(DailyTotals(rows), 0.0)
  }

  /** Python's `weekday()` of a proleptic Gregorian ordinal: ordinal 1 (1 January of year 1) is a Monday. */
  function DayOfWeek(ordinal: int): (w: int)
    ensures 0 <= w < 7
  {
    (ordinal + 6) % 7
  }

  /** Consecutive ordinals are consecutive weekdays; 1 January 2024 (ordinal 738886) is a Monday. */
  lemma DayOfWeekCycle(ordinal: int)
    ensures DayOfWeek(ordinal + 1) == (DayOfWeek(ordinal) + 1) % 7
    ensures DayOfWeek(ordinal + 7) == DayOfWeek(ordinal)
    ensures DayOfWeek(738886) == 0
  {
  }

  /** The calendar features of a date; the month of an ordinal is given by the calendar. */
  function FeaturesOf(date: int, monthOf: int -> int): Features
  {
    Features(date, DayOfWeek(date), monthOf(date))
  }

  /** The regressor fitted on the historical series: features of each day against its balance. */
  function FitRegressor(history: seq<DayBalance>, monthOf: int -> int): Regressor
  {
    FittedRegressor(seq(|history|, i requires 0 <= i < |history| =>
      Sample(FeaturesOf(history[i].date, monthOf), history[i].balance)))
  }

  /**
   * The forecast: `None` for an empty table; otherwise one row for each of the
   * `daysForward` days after the latest historical date, each with the regressor's
   * prediction on that day's features. The horizon must be positive: with no future
   * date the source raises while building the feature frame.
   */
  function ForecastBalance(rows: seq<Row>, daysForward: int, monthOf: int -> int,
                           predict: (Regressor, Features) -> real): (r: Option<seq<Prediction>>)
    requires daysForward > 0
    ensures r.None? <==> rows == []
    ensures r.Some? ==> |r.value| == daysForward
    ensures r.Some? ==> forall i :: 0 <= i < |r.value| ==> r.value[i].date == MaxDate(rows) + 1 + i
    ensures r.Some? ==> forall i :: 0 < i < |r.value| ==> r.value[i].date == r.value[i - 1].date + 1
    ensures r.Some? ==> forall i :: 0 <= i < |r.value| ==>
      r.value[i].predictedBalance == predict(FitRegressor(DailyBalances(rows), monthOf), FeaturesOf(r.value[i].date, monthOf))
  {
    if rows == [] then None
    else
      var history := DailyBalances(rows);
      HistoryEndsAtMaxDate(rows);
      var model := FitRegressor(history, monthOf);
      var lastDate := history[|history| - 1].date;
      Some(seq(daysForward, i requires 0 <= i < daysForward =>
        var d := lastDate + 1 + i;
        Prediction(d, predict(model, FeaturesOf(d, monthOf)))))
  }

  /** A day absent from the grouped frame has no amount. */
  lemma {:induction false} AmountOnAbsent(daily: seq<DayTotal>, d: int)
    requires d !in DayDates(daily)
    ensures AmountOn(daily, d) == 0.0
  {
    if daily != [] {
      assert daily[0].date != d;
      assert DayDates(daily[1..]) <= DayDates(daily);
      AmountOnAbsent(daily[1..], d);
    }
  }

  /** In a sorted grouped frame, the row of a date holds exactly that date's amount. */
  lemma {:induction false} AmountOnAt(daily: seq<DayTotal>, i: nat)
    requires Ascending(daily)
    requires i < |daily|
    ensures AmountOn(daily, daily[i].date) == daily[i].amount
  {
    if i == 0 {
      assert daily[0].date !in DayDates(daily[1..]);
      AmountOnAbsent(daily[1..], daily[0].date);
    } else {
      assert daily[1..][i - 1] == daily[i];
      AmountOnAt(daily[1..], i - 1);
    }
  }

  /**
   * `daily` is `rows` grouped by date: sorted with one row per date, the dates those of
   * the table, each row holding the sum of its date's amounts.
   */
  ghost predicate GroupedBy(daily: seq<DayTotal>, rows: seq<Row>)
  {
    && Ascending(daily)
    && DayDates(daily) == RowDates(rows)
    && forall j :: 0 <= j < |daily| ==> daily[j].amount == SumOn(rows, daily[j].date)
  }

  /** The grouped frame of a table is that table grouped by date. */
  lemma DailyTotalsGrouped(rows: seq<Row>)
    ensures GroupedBy(DailyTotals(rows), rows)
  {
    var daily := DailyTotals(rows);
    forall j | 0 <= j < |daily| ensures daily[j].amount == SumOn(rows, daily[j].date) {
      AmountOnAt(daily, j);
      DailyTotalsAmount(rows, daily[j].date);
    }
  }

  /** Splitting off the first day of a prefix sum. */
  lemma {:induction false} PrefixTotalFront(daily: seq<DayTotal>, n: nat)
    requires 0 < n <= |daily|
    ensures PrefixTotal(daily, n) == daily[0].amount + PrefixTotal(daily[1..], n - 1)
  {
    if n > 1 {
      PrefixTotalFront(daily, n - 1);
    }
  }

  /** The running sum is the opening value plus the sum of the days so far. */
  lemma {:induction false} CumulateIsPrefixTotal(daily: seq<DayTotal>, opening: real, i: nat)
    requires i < |daily|
    ensures Cumulate(daily, opening)[i].balance == opening + PrefixTotal(daily, i + 1)
  {
    PrefixTotalFront(daily, i + 1);
    if i > 0 {
      CumulateIsPrefixTotal(daily[1..], opening + daily[0].amount, i - 1);
    }
  }

  /** Every transaction date is the date of some row of the grouped frame. */
  lemma DateIndex(daily: seq<DayTotal>, rows: seq<Row>, k: nat) returns (j: nat)
    requires GroupedBy(daily, rows)
    requires k < |rows|
    ensures j < |daily| && daily[j].date == rows[k].date
  {
    assert rows[k].date in DayDates(daily);
    j :| 0 <= j < |daily| && daily[j].date == rows[k].date;
  }

  /** The sum of the first `i + 1` days is the sum of every amount dated up to day `i`. */
  lemma {:induction false} PrefixTotalIsSumUpTo(daily: seq<DayTotal>, rows: seq<Row>, i: nat)
    requires GroupedBy(daily, rows)
    requires i < |daily|
    ensures PrefixTotal(daily, i + 1) == SumUpTo(rows, daily[i].date)
  {
    var d := daily[i].date;
    if i == 0 {
      forall k | 0 <= k < |rows| ensures d - 1 < rows[k].date {
        var j := DateIndex(daily, rows, k);
        assert j == 0 || daily[0].date < daily[j].date;
      }
      SumUpToNone(rows, d - 1);
      SumUpToStep(rows, d - 1, d);
    } else {
      var prev := daily[i - 1].date;
      forall k | 0 <= k < |rows| ensures !(prev < rows[k].date < d) {
        var j := DateIndex(daily, rows, k);
        assert j <= i - 1 || i <= j;
        assert j < i - 1 ==> daily[j].date < prev;
        assert i < j ==> d < daily[j].date;
      }
      PrefixTotalIsSumUpTo(daily, rows, i - 1);
      SumUpToStep(rows, prev, d);
    }
  }

  /** A sorted grouped frame has exactly one row per distinct date. */
  lemma {:induction false} DistinctDatesCount(daily: seq<DayTotal>)
    requires Ascending(daily)
    ensures |DayDates(daily)| == |daily|
  {
    if daily != [] {
      DistinctDatesCount(daily[1..]);
      assert daily == [daily[0]] + daily[1..];
      DayDatesCons(daily[0], daily[1..]);
      assert daily[0].date !in DayDates(daily[1..]);
    }
  }

  /**
   * The historical series has one entry per distinct date, in strictly ascending date
   * order, and the balance of each entry is the sum of every amount dated on or before it.
   */
  lemma HistoricalSeries(rows: seq<Row>)
    ensures |DailyBalances(rows)| == |RowDates(rows)|
    ensures forall i, j :: 0 <= i < j < |DailyBalances(rows)| ==>
      DailyBalances(rows)[i].date < DailyBalances(rows)[j].date
    ensures forall i :: 0 <= i < |DailyBalances(rows)| ==> DailyBalances(rows)[i].date in RowDates(rows)
    ensures forall i :: 0 <= i < |DailyBalances(rows)| ==>
      DailyBalances(rows)[i].balance == SumUpTo(rows, DailyBalances(rows)[i].date)
  {
    var daily := DailyTotals(rows);
    var history := DailyBalances(rows);
    DailyTotalsGrouped(rows);
    DistinctDatesCount(daily);
    forall i | 0 <= i < |history| ensures history[i].date in RowDates(rows) {
      assert history[i].date == daily[i].date;
    }
    forall i | 0 <= i < |history| ensures history[i].balance == SumUpTo(rows, history[i].date) {
      CumulateIsPrefixTotal(daily, 0.0, i);
      PrefixTotalIsSumUpTo(daily, rows, i);
    }
  }

  /** The last row of a table's grouped frame is dated at the table's latest date. */
  lemma LastDayIsMaxDate(daily: seq<DayTotal>, rows: seq<Row>)
    requires GroupedBy(daily, rows)
    requires rows != []
    ensures |daily| > 0
    ensures daily[|daily| - 1].date == MaxDate(rows)
  {
    assert rows[0].date in DayDates(daily);
    var n := |daily|;
    var last := daily[n - 1].date;
    forall k | 0 <= k < |rows| ensures rows[k].date <= last {
      var j := DateIndex(daily, rows, k);
      assert j == n - 1 || daily[j].date < last;
    }
    assert last in RowDates(rows);
    var kl :| 0 <= kl < |rows| && rows[kl].date == last;
    assert last <= MaxDate(rows);
    var km :| 0 <= km < |rows| && rows[km].date == MaxDate(rows);
    assert MaxDate(rows) <= last;
  }

  /** The cumulative sum of a table's grouped frame ends at the latest date with the total. */
  lemma CumulateEndsAtTotal(daily: seq<DayTotal>, rows: seq<Row>)
    requires GroupedBy(daily, rows)
    requires rows != []
    ensures |daily| > 0
    ensures Cumulate(daily, 0.0)[|daily| - 1].date == MaxDate(rows)
    ensures Cumulate(daily, 0.0)[|daily| - 1].balance == Total(rows)
  {
    LastDayIsMaxDate(daily, rows);
    var n := |daily|;
    CumulateIsPrefixTotal(daily, 0.0, n - 1);
    PrefixTotalIsSumUpTo(daily, rows, n - 1);
    forall k | 0 <= k < |rows| ensures rows[k].date <= daily[n - 1].date {
      assert rows[k].date <= MaxDate(rows);
    }
    SumUpToAll(rows, daily[n - 1].date);
  }

  /**
   * A non-empty table has a non-empty series whose last entry is dated at the latest
   * transaction date and holds the total of all amounts.
   */
  lemma HistoryEndsAtMaxDate(rows: seq<Row>)
    requires rows != []
    ensures |DailyBalances(rows)| > 0
    ensures DailyBalances(rows)[|DailyBalances(rows)| - 1].date == MaxDate(rows)
    ensures DailyBalances(rows)[|DailyBalances(rows)| - 1].balance == Total(rows)
  {
    DailyTotalsGrouped(rows);
    CumulateEndsAtTotal(DailyTotals(rows), rows);
  }

  /**
   * The regressor of a table's forecast is fitted on one sample per distinct transaction
   * date, in ascending date order; each sample pairs the date's ordinal, weekday and month
   * with the balance of all amounts dated on or before it.
   */
  lemma FittedOnHistory(rows: seq<Row>, monthOf: int -> int)
    ensures var m := FitRegressor(DailyBalances(rows), monthOf);
      && |m.samples| == |RowDates(rows)|
      && (forall i, j :: 0 <= i < j < |m.samples| ==>
            m.samples[i].features.dayOrdinal < m.samples[j].features.dayOrdinal)
      && (forall i :: 0 <= i < |m.samples| ==>
            var d := m.samples[i].features.dayOrdinal;
            && d in RowDates(rows)
            && m.samples[i].features == Features(d, DayOfWeek(d), monthOf(d))
            && m.samples[i].balance == SumUpTo(rows, d))
  {
    var history := DailyBalances(rows);
    var m := FitRegressor(history, monthOf);
    HistoricalSeries(rows);
    assert |m.samples| == |history|;
    forall i | 0 <= i < |m.samples|
      ensures m.samples[i] == Sample(FeaturesOf(history[i].date, monthOf), history[i].balance)
    {
    }
  }

  /**
   * At the default horizon a forecast covers the thirty days after the latest
   * transaction date.
   */
  lemma DefaultForecastSpan(rows: seq<Row>, monthOf: int -> int, predict: (Regressor, Features) -> real)
    requires rows != []
    ensures var r := ForecastBalance(rows, DEFAULT_DAYS_FORWARD, monthOf, predict);
      && r.Some?
      && |r.value| == 30
      && r.value[0].date == MaxDate(rows) + 1
      && r.value[29].date == MaxDate(rows) + 30
  {
  }
}
