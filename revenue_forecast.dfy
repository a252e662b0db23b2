/** Preparation of a metric for the seasonal forecaster, and the choice of the dip the
    forecast chart annotates (src/prediction/revenue_forecast.py). The forecasting
    model is a parameter: `fit` turns the weekly history into predictions by day. */
module RevenueForecast {

  import opened Results
  import opened Seqs
  import opened Calendar
  import opened Tables
  import InsightsEngine

  datatype ForecastError =
    | MissingColumn(name: string)
    | UnparseableDate
    | NoDates          // every date is missing: the December anchor cannot be built
    | NonNumeric(name: string)
    | NoFutureRows     // `idxmin` of an empty selection

  /** One dated value of the series; `day` is the date's day number. */
  datatype Sample = Sample(day: int, y: real)

  /** One weekly bucket: the day number of the Sunday ending the week and the total. */
  datatype Bucket = Bucket(week: int, total: real)

  /** One row of the forecast: the date (a day number) and the point prediction. */
  datatype Row = Row(ds: int, yhat: real)

  /** What a fitted model predicts for each day number. */
  type Model = int -> real

  datatype Forecast = Forecast(history: seq<Bucket>, rows: seq<Row>)

  /** Weeks predicted past the history (`periods=26`, six months). */
  const FuturePeriods := 26

  /** `df[name]`: the insights generator's column lookup, with its error reported here. */
  function Get(t: Table, name: string): (r: Result<seq<Cell>, ForecastError>)
    requires WellFormed(t)
    ensures r.Failure? <==> name !in t.columns
    ensures r.Failure? ==> r.error == MissingColumn(name)
    ensures r.Success? ==> r.value == Column(t, name)
  {
    match InsightsEngine.Lookup(t, name)
    case Success(cells) => Success(cells)
    case Failure(_) => Failure(MissingColumn(name))
  }

  /** Lines 7-9: on a copy of the table, `ds` holds the parsed dates and `y` the metric
      (read after `ds` is written). */
  function Prepared(t: Table, column: string, parse: DateParser): (r: Result<Table, ForecastError>)
    requires WellFormed(t)
    ensures r.Success? ==> WellFormed(r.value) && |r.value.rows| == |t.rows|
    ensures r.Success? ==> "date" in t.columns && "ds" in r.value.columns && "y" in r.value.columns
    ensures r.Success? ==> forall i :: 0 <= i < |t.rows| ==>
              Some(Column(r.value, "ds")[i]) == InsightsEngine.ToDatetime(parse, Column(t, "date")[i])
    ensures r.Success? ==> column == "ds" || column in t.columns
    ensures r.Success? ==> Column(r.value, "y") == if column == "ds" then Column(r.value, "ds") else Column(t, column)
    ensures r.Failure? <==> || "date" !in t.columns
                            || InsightsEngine.ToDatetimeColumn(Column(t, "date"), parse).Failure?
                            || (column != "ds" && column !in t.columns)
    ensures r.Failure? && "date" !in t.columns ==> r.error == MissingColumn("date")
  {
    var cells :- Get(t, "date");
    var dates :- match InsightsEngine.ToDatetimeColumn(cells, parse)
                 case Success(d) => Success(d)
                 case Failure(_) => Failure(UnparseableDate);
    var t1 := SetColumn(t, "ds", dates);
    var ys :- Get(t1, column);
    Success(SetColumn(t1, "y", ys))
  }

  /** The dates of a column of timestamps; None for NaT. */
  function Stamps(cells: seq<Cell>): (r: seq<Option<Date>>)
    ensures |r| == |cells|
    ensures forall i :: 0 <= i < |cells| ==> r[i] == if cells[i].Stamp? then Some(cells[i].date) else None
  {
    seq(|cells|, i requires 0 <= i < |cells| => if cells[i].Stamp? then Some(cells[i].date) else None)
  }

  /** `Series.max()` of a date column: the latest date; None when every date is NaT. */
  function Latest(ds: seq<Option<Date>>): (r: Option<Date>)
    ensures r.None? <==> forall i :: 0 <= i < |ds| ==> ds[i].None?
    ensures r.Some? ==> exists i :: 0 <= i < |ds| && ds[i] == r
    ensures r.Some? ==> forall i :: 0 <= i < |ds| && ds[i].Some? ==> Ordinal(ds[i].value) <= Ordinal(r.value)
  {
    if ds == [] then None
    else
      var p := Latest(ds[..|ds| - 1]);
      var q := ds[|ds| - 1];
      assert forall i :: 0 <= i < |ds| - 1 ==> ds[..|ds| - 1][i] == ds[i];
      if q.None? then p
      else if p.Some? && Ordinal(q.value) <= Ordinal(p.value) then p
      else q
  }

  /** The first row dated `d` (what `df[df['ds'] == d].iloc[0]` selects). */
  function FirstAt(ds: seq<Option<Date>>, d: Date): (i: nat)
    requires exists i :: 0 <= i < |ds| && ds[i] == Some(d)
    ensures i < |ds| && ds[i] == Some(d)
    ensures forall j :: 0 <= j < i ==> ds[j] != Some(d)
  {
    if ds[0] == Some(d) then 0
    else
      var k :| 0 <= k < |ds| && ds[k] == Some(d);
      assert ds[1..][k - 1] == Some(d);
      1 + FirstAt(ds[1..], d)
  }

  /** The row line 15 builds: `ds` and `y` set, every other column missing. */
  function AnchorRow(u: Table, d: Date, y: Cell): (row: seq<Cell>)
    ensures |row| == |u.columns|
  {
    seq(|u.columns|, j requires 0 <= j < |u.columns| =>
      if u.columns[j] == "ds" then Stamp(d) else if u.columns[j] == "y" then y else Missing)
  }

  /** Lines 11-16: when the latest date is not in December, one row dated December 1 of
      its year is appended, carrying the value of the first row at the latest date. */
  function Anchored(u: Table): (r: Result<Table, ForecastError>)
    requires WellFormed(u) && "ds" in u.columns && "y" in u.columns
    ensures r.Success? ==> WellFormed(r.value) && r.value.columns == u.columns
    ensures r.Failure? <==> Latest(Stamps(Column(u, "ds"))).None?
    ensures r.Failure? ==> r.error == NoDates
  {
    var ds := Stamps(Column(u, "ds"));
    match Latest(ds)
    case None => Failure(NoDates)
    case Some(last) =>
      if last.month == 12 then Success(u)
      else Success(WithRow(u, AnchorRow(u, DecemberFirst(last.year), Column(u, "y")[FirstAt(ds, last)])))
  }

  /** The anchored table keeps every original row as a prefix of its series and adds at
      most the one December row. */
  lemma AnchorKeepsPoints(u: Table)
    requires WellFormed(u) && "ds" in u.columns && "y" in u.columns
    requires Anchored(u).Success?
    ensures var a := Anchored(u).value;
      var ds := Stamps(Column(u, "ds"));
      var last := Latest(ds).value;
      && (last.month == 12 ==> a == u)
      && (last.month != 12 ==>
            && Column(a, "ds") == Column(u, "ds") + [Stamp(DecemberFirst(last.year))]
            && Column(a, "y") == Column(u, "y") + [Column(u, "y")[FirstAt(ds, last)]])
  {
    var ds := Stamps(Column(u, "ds"));
    var last := Latest(ds).value;
    if last.month != 12 {
      var row := AnchorRow(u, DecemberFirst(last.year), Column(u, "y")[FirstAt(ds, last)]);
      assert row[ColumnIndex(u, "ds")] == Stamp(DecemberFirst(last.year));
      assert row[ColumnIndex(u, "y")] == Column(u, "y")[FirstAt(ds, last)];
    }
  }

  /** After anchoring, the latest date lies in December. */
  lemma AnchoredInDecember(u: Table)
    requires WellFormed(u) && "ds" in u.columns && "y" in u.columns
    requires Anchored(u).Success?
    ensures var last := Latest(Stamps(Column(Anchored(u).value, "ds")));
      last.Some? && last.value.month == 12
  {
    var ds := Stamps(Column(u, "ds"));
    var last := Latest(ds).value;
    AnchorKeepsPoints(u);
    if last.month != 12 {
      var dec := DecemberFirst(last.year);
      assert Stamps(Column(Anchored(u).value, "ds")) == ds + [Some(dec)];
      BeforeDecember(last);
      LatestAfter(ds, dec);
    }
  }

  /** Appending a date later than every date makes it the latest. */
  lemma LatestAfter(ds: seq<Option<Date>>, d: Date)
    requires Latest(ds).Some? ==> Ordinal(Latest(ds).value) < Ordinal(d)
    ensures Latest(ds + [Some(d)]) == Some(d)
  {
    assert (ds + [Some(d)])[..|ds|] == ds;
  }

  /** A value `groupby(...).sum()` adds up: a number, or NaN, which the sum skips. */
  predicate Summable(c: Cell)
  {
    c.Num? || c.Missing?
  }

  /** What one summable value adds to a sum. */
  function Weight(c: Cell): real
    requires Summable(c)
  {
    if c.Num? then c.v else 0.0
  }

  /** Every dated row has a summable value. */
  predicate SummableRows(ds: seq<Option<Date>>, ys: seq<Cell>)
  {
    |ds| == |ys| && forall i :: 0 <= i < |ds| && ds[i].Some? ==> Summable(ys[i])
  }

  /** The dated rows of the series in order: groupby drops rows whose date is NaT. */
  function Samples(ds: seq<Option<Date>>, ys: seq<Cell>): seq<Sample>
    requires SummableRows(ds, ys)
  {
    if ds == [] then []
    else
      var n := |ds| - 1;
      assert forall i :: 0 <= i < n ==> ds[..n][i] == ds[i] && ys[..n][i] == ys[i];
      Samples(ds[..n], ys[..n]) + if ds[n].Some? then [SampleAt(ds, ys, n)] else []
  }

  /** The sample of dated row `i`. */
  function SampleAt(ds: seq<Option<Date>>, ys: seq<Cell>, i: nat): Sample
    requires SummableRows(ds, ys) && i < |ds| && ds[i].Some?
  {
    Sample(Ordinal(ds[i].value), Weight(ys[i]))
  }

  /** Every dated row gives a sample. */
  lemma {:induction false} SamplesOfRows(ds: seq<Option<Date>>, ys: seq<Cell>)
    requires SummableRows(ds, ys)
    ensures var x := Samples(ds, ys);
      forall i :: 0 <= i < |ds| && ds[i].Some? ==> exists k :: 0 <= k < |x| && x[k] == SampleAt(ds, ys, i)
  {
    if ds != [] {
      var n := |ds| - 1;
      var ds', ys' := ds[..n], ys[..n];
      SamplesPrefix(ds, ys);
      SamplesOfRows(ds', ys');
      var front := Samples(ds', ys');
      var x := Samples(ds, ys);
      forall i | 0 <= i < |ds| && ds[i].Some?
        ensures exists k :: 0 <= k < |x| && x[k] == SampleAt(ds, ys, i)
      {
        if i == n {
          assert x[|front|] == SampleAt(ds, ys, n);
        } else {
          var k :| 0 <= k < |front| && front[k] == SampleAt(ds', ys', i);
          assert x[k] == SampleAt(ds, ys, i);
        }
      }
    }
  }

  /** `p` is the sample of some dated row. */
  predicate IsSampleOf(ds: seq<Option<Date>>, ys: seq<Cell>, p: Sample)
    requires SummableRows(ds, ys)
  {
    exists i :: 0 <= i < |ds| && ds[i].Some? && p == SampleAt(ds, ys, i)
  }

  /** Every sample comes from a dated row. */
  lemma {:induction false} RowsOfSamples(ds: seq<Option<Date>>, ys: seq<Cell>)
    requires SummableRows(ds, ys)
    ensures var x := Samples(ds, ys);
      forall k :: 0 <= k < |x| ==> IsSampleOf(ds, ys, x[k])
  {
    if ds != [] {
      var n := |ds| - 1;
      var ds', ys' := ds[..n], ys[..n];
      SamplesPrefix(ds, ys);
      RowsOfSamples(ds', ys');
      var front := Samples(ds', ys');
      var x := Samples(ds, ys);
      forall k | 0 <= k < |x|
        ensures IsSampleOf(ds, ys, x[k])
      {
        if k == |front| {
          assert ds[n].Some? && x[k] == SampleAt(ds, ys, n);
        } else {
          assert IsSampleOf(ds', ys', front[k]);
          var i :| 0 <= i < n && ds'[i].Some? && front[k] == SampleAt(ds', ys', i);
          assert ds[i].Some? && x[k] == SampleAt(ds, ys, i);
        }
      }
    } else {
      assert Samples(ds, ys) == [];
    }
  }

  /** The samples of all rows extend those of all rows but the last. */
  lemma SamplesPrefix(ds: seq<Option<Date>>, ys: seq<Cell>)
    requires SummableRows(ds, ys) && |ds| > 0
    ensures var n := |ds| - 1;
      && SummableRows(ds[..n], ys[..n])
      && (forall i :: 0 <= i < n && ds[i].Some? ==> SampleAt(ds[..n], ys[..n], i) == SampleAt(ds, ys, i))
      && Samples(ds, ys) == Samples(ds[..n], ys[..n]) + if ds[n].Some? then [SampleAt(ds, ys, n)] else []
  {
    var n := |ds| - 1;
    assert forall i :: 0 <= i < n ==> ds[..n][i] == ds[i] && ys[..n][i] == ys[i];
  }

  function Ys(x: seq<Sample>): (r: seq<real>)
    ensures |r| == |x| && forall i :: 0 <= i < |x| ==> r[i] == x[i].y
  {
    seq(|x|, i requires 0 <= i < |x| => x[i].y)
  }

  function MinDay(x: seq<Sample>): (m: int)
    requires |x| > 0
    ensures forall i :: 0 <= i < |x| ==> m <= x[i].day
    ensures exists i :: 0 <= i < |x| && x[i].day == m
  {
    if |x| == 1 then x[0].day
    else
      var r := MinDay(x[1..]);
      assert forall i :: 1 <= i < |x| ==> x[i] == x[1..][i - 1];
      if x[0].day <= r then x[0].day else r
  }

  function MaxDay(x: seq<Sample>): (m: int)
    requires |x| > 0
    ensures forall i :: 0 <= i < |x| ==> x[i].day <= m
    ensures exists i :: 0 <= i < |x| && x[i].day == m
  {
    if |x| == 1 then x[0].day
    else
      var r := MaxDay(x[1..]);
      assert forall i :: 1 <= i < |x| ==> x[i] == x[1..][i - 1];
      if r <= x[0].day then x[0].day else r
  }

  /** What one sample adds to the week ending on day `w`. */
  function Hit(p: Sample, w: int): real
  {
    if WeekEnd(p.day) == w then p.y else 0.0
  }

  /** The total of the samples in the week ending on day `w`. */
  function WeekTotal(x: seq<Sample>, w: int): real
  {
    if x == [] then 0.0 else WeekTotal(x[..|x| - 1], w) + Hit(x[|x| - 1], w)
  }

  /** The totals of `count` consecutive weeks, the first ending on day `first`. */
  function WeekTotals(x: seq<Sample>, first: int, count: nat): (r: seq<real>)
    ensures |r| == count && forall k :: 0 <= k < count ==> r[k] == WeekTotal(x, first + 7 * k)
  {
    seq(count, k requires 0 <= k < count => WeekTotal(x, first + 7 * k))
  }

  /** The number of weeks from the week of the earliest sample to that of the latest. */
  function WeekCount(x: seq<Sample>): (n: nat)
    requires |x| > 0
  {
    WeekEndMonotone(MinDay(x), MaxDay(x));
    (WeekEnd(MaxDay(x)) - WeekEnd(MinDay(x))) / 7 + 1
  }

  /** Line 18: weekly totals from the week of the earliest sample to the week of the
      latest, empty weeks included (with total 0). */
  function Weekly(x: seq<Sample>): (b: seq<Bucket>)
    requires |x| > 0
  {
    var first := WeekEnd(MinDay(x));
    seq(WeekCount(x), k requires 0 <= k < WeekCount(x) => Bucket(first + 7 * k, WeekTotal(x, first + 7 * k)))
  }

  function Totals(b: seq<Bucket>): (r: seq<real>)
    ensures |r| == |b| && forall k :: 0 <= k < |b| ==> r[k] == b[k].total
  {
    seq(|b|, k requires 0 <= k < |b| => b[k].total)
  }

  /** Each week `k` days after a Sunday, for whole weeks, is a Sunday. */
  lemma {:induction false} SundayShift(n: int, k: nat)
    requires Weekday(n) == 6
    ensures Weekday(n + 7 * k) == 6
  {
    if k > 0 {
      SundayShift(n, k - 1);
      assert n + 7 * k == (n + 7 * (k - 1)) + 7;
    }
  }

  /** The buckets are consecutive Sundays, one week apart, and each one holds the
      total of the samples of its week. */
  lemma WeeklyWeeks(x: seq<Sample>)
    requires |x| > 0
    ensures var b := Weekly(x);
      && (forall k :: 0 <= k < |b| ==> Weekday(b[k].week) == 6 && b[k].total == WeekTotal(x, b[k].week))
      && (forall k :: 0 <= k < |b| - 1 ==> b[k + 1].week == b[k].week + 7)
  {
    var b := Weekly(x);
    var first := WeekEnd(MinDay(x));
    forall k | 0 <= k < |b|
      ensures Weekday(b[k].week) == 6
    {
      SundayShift(first, k);
    }
  }

  /** The buckets run from the week of the earliest sample to the week of the latest. */
  lemma WeeklySpan(x: seq<Sample>)
    requires |x| > 0
    ensures var b := Weekly(x);
      |b| > 0 && b[0].week == WeekEnd(MinDay(x)) && b[|b| - 1].week == WeekEnd(MaxDay(x))
  {
    var first, last := WeekEnd(MinDay(x)), WeekEnd(MaxDay(x));
    WeekEndMonotone(MinDay(x), MaxDay(x));
    WeekEndsApart(first, last);
    var c := (last - first) / 7;
    assert first + 7 * c == last;
  }

  /** Every sample falls in the week of one bucket. */
  lemma WeeklyCovers(x: seq<Sample>)
    requires |x| > 0
    ensures var b := Weekly(x);
      forall i :: 0 <= i < |x| ==> exists k :: 0 <= k < |b| && b[k].week == WeekEnd(x[i].day)
  {
    var b := Weekly(x);
    forall i | 0 <= i < |x|
      ensures exists k :: 0 <= k < |b| && b[k].week == WeekEnd(x[i].day)
    {
      var k := InWeeks(x, i);
      assert b[k].week == WeekEnd(x[i].day);
    }
  }

  /** The position of a sample's week among the weekly buckets. */
  lemma InWeeks(x: seq<Sample>, i: nat) returns (k: nat)
    requires i < |x|
    ensures k < |Weekly(x)| && WeekEnd(MinDay(x)) + 7 * k == WeekEnd(x[i].day)
  {
    var first, last, w := WeekEnd(MinDay(x)), WeekEnd(MaxDay(x)), WeekEnd(x[i].day);
    WeekEndMonotone(MinDay(x), x[i].day);
    WeekEndMonotone(x[i].day, MaxDay(x));
    WeekEndsApart(first, w);
    WeekEndsApart(first, last);
    k := (w - first) / 7;
  }

  /** The weekly totals add up to the total of every sample. */
  lemma WeeklyTotal(x: seq<Sample>)
    requires |x| > 0
    ensures Sum(Totals(Weekly(x))) == Sum(Ys(x))
  {
    var b := Weekly(x);
    var first := WeekEnd(MinDay(x));
    forall i | 0 <= i < |x|
      ensures first <= WeekEnd(x[i].day) < first + 7 * |b| && (WeekEnd(x[i].day) - first) % 7 == 0
    {
      var k := InWeeks(x, i);
    }
    assert Totals(b) == WeekTotals(x, first, |b|);
    SpreadTotal(x, first, |b|);
  }

  /** What one sample adds to each of `count` consecutive weeks. */
  function Hits(p: Sample, first: int, count: nat): (h: seq<real>)
    ensures |h| == count && forall k :: 0 <= k < count ==> h[k] == Hit(p, first + 7 * k)
  {
    seq(count, k requires 0 <= k < count => Hit(p, first + 7 * k))
  }

  /** A sample inside the weeks adds its value to exactly one of them. */
  lemma HitsOnce(p: Sample, first: int, count: nat)
    requires first <= WeekEnd(p.day) < first + 7 * count && (WeekEnd(p.day) - first) % 7 == 0
    ensures Sum(Hits(p, first, count)) == p.y
  {
    var k0 := (WeekEnd(p.day) - first) / 7;
    assert first + 7 * k0 == WeekEnd(p.day);
    SumOneHot(Hits(p, first, count), k0);
  }

  /** Summing week by week over weeks that hold every sample gives the total. */
  lemma {:induction false} SpreadTotal(x: seq<Sample>, first: int, count: nat)
    requires forall i :: 0 <= i < |x| ==>
               first <= WeekEnd(x[i].day) < first + 7 * count && (WeekEnd(x[i].day) - first) % 7 == 0
    ensures Sum(WeekTotals(x, first, count)) == Sum(Ys(x))
  {
    if x == [] {
      SumOfZeros(WeekTotals(x, first, count));
    } else {
      var n := |x| - 1;
      var p := x[n];
      assert forall i :: 0 <= i < n ==> x[..n][i] == x[i];
      SpreadTotal(x[..n], first, count);
      var a := WeekTotals(x[..n], first, count);
      var h := Hits(p, first, count);
      assert WeekTotals(x, first, count) == seq(count, k requires 0 <= k < count => a[k] + h[k]);
      SumPointwise(a, h);
      HitsOnce(p, first, count);
      assert Ys(x) == Ys(x[..n]) + [p.y];
      SumSnoc(Ys(x[..n]), p.y);
    }
  }

  /** Line 23: the history dates followed by 26 further Sundays, a week apart. */
  function FutureDates(h: seq<Bucket>): (ds: seq<int>)
    requires |h| > 0
    ensures |ds| == |h| + FuturePeriods
    ensures forall i :: 0 <= i < |h| ==> ds[i] == h[i].week
    ensures forall i :: |h| <= i < |ds| ==> ds[i] == h[|h| - 1].week + 7 * (i - |h| + 1)
  {
    seq(|h|, i requires 0 <= i < |h| => h[i].week)
      + seq(FuturePeriods, k requires 0 <= k < FuturePeriods => h[|h| - 1].week + 7 * (k + 1))
  }

  /** Over a weekly history the prediction dates stay one week apart throughout. */
  lemma FutureDatesWeekly(h: seq<Bucket>)
    requires |h| > 0
    requires forall k :: 0 <= k < |h| - 1 ==> h[k + 1].week == h[k].week + 7
    ensures var ds := FutureDates(h);
      forall i :: 0 <= i < |ds| - 1 ==> ds[i + 1] == ds[i] + 7
  {
    var ds := FutureDates(h);
    forall i | 0 <= i < |ds| - 1
      ensures ds[i + 1] == ds[i] + 7
    {
      if i >= |h| - 1 {
        assert ds[i + 1] == h[|h| - 1].week + 7 * (i - |h| + 2);
      }
    }
  }

  /** Line 24: the model's prediction at every date. */
  function Predict(model: Model, ds: seq<int>): (rows: seq<Row>)
    ensures |rows| == |ds| && forall i :: 0 <= i < |ds| ==> rows[i] == Row(ds[i], model(ds[i]))
  {
    seq(|ds|, i requires 0 <= i < |ds| => Row(ds[i], model(ds[i])))
  }

  /** Lines 18-24 on the anchored table: the weekly history and the predictions of the
      model fitted to it. */
  function Trained(a: Table, column: string, fit: seq<Bucket> -> Model): (r: Result<Forecast, ForecastError>)
    requires WellFormed(a) && "ds" in a.columns && "y" in a.columns
    requires Latest(Stamps(Column(a, "ds"))).Some?
    ensures r.Failure? <==> !SummableRows(Stamps(Column(a, "ds")), Column(a, "y"))
    ensures r.Failure? ==> r.error == NonNumeric(column)
    ensures r.Success? ==> |r.value.history| > 0 && |r.value.rows| == |r.value.history| + FuturePeriods
  {
    var ds, ys := Stamps(Column(a, "ds")), Column(a, "y");
    if !SummableRows(ds, ys) then Failure(NonNumeric(column))
    else
      SamplesNonEmpty(ds, ys);
      var h := Weekly(Samples(ds, ys));
      WeeklySpan(Samples(ds, ys));
      Success(Forecast(h, Predict(fit(h), FutureDates(h))))
  }

  /** A series with a dated row has a sample. */
  lemma SamplesNonEmpty(ds: seq<Option<Date>>, ys: seq<Cell>)
    requires SummableRows(ds, ys) && Latest(ds).Some?
    ensures |Samples(ds, ys)| > 0
  {
    var i :| 0 <= i < |ds| && ds[i] == Latest(ds);
    SamplesOfRows(ds, ys);
  }

  /** The forecast rows are the history's Sundays followed by 26 more, one week apart,
      each with the fitted model's prediction. */
  lemma TrainedRows(a: Table, column: string, fit: seq<Bucket> -> Model)
    requires WellFormed(a) && "ds" in a.columns && "y" in a.columns
    requires Latest(Stamps(Column(a, "ds"))).Some?
    requires Trained(a, column, fit).Success?
    ensures var f := Trained(a, column, fit).value;
      && |f.rows| == |f.history| + FuturePeriods
      && (forall i :: 0 <= i < |f.history| ==> f.rows[i].ds == f.history[i].week)
      && (forall i :: 0 <= i < |f.rows| - 1 ==> f.rows[i + 1].ds == f.rows[i].ds + 7)
      && (forall i :: 0 <= i < |f.rows| ==> Weekday(f.rows[i].ds) == 6)
      && (forall i :: 0 <= i < |f.rows| ==> f.rows[i].yhat == fit(f.history)(f.rows[i].ds))
  {
    var x := Samples(Stamps(Column(a, "ds")), Column(a, "y"));
    SamplesNonEmpty(Stamps(Column(a, "ds")), Column(a, "y"));
    WeeklyWeeks(x);
    PredictedWeeks(Weekly(x), fit(Weekly(x)));
  }

  /** Predictions over a history of consecutive Sundays fall on consecutive Sundays. */
  lemma PredictedWeeks(h: seq<Bucket>, model: Model)
    requires |h| > 0
    requires forall k :: 0 <= k < |h| ==> Weekday(h[k].week) == 6
    requires forall k :: 0 <= k < |h| - 1 ==> h[k + 1].week == h[k].week + 7
    ensures var rows := Predict(model, FutureDates(h));
      && (forall i :: 0 <= i < |rows| - 1 ==> rows[i + 1].ds == rows[i].ds + 7)
      && (forall i :: 0 <= i < |rows| ==> Weekday(rows[i].ds) == 6)
  {
    FutureDatesWeekly(h);
    var dates := FutureDates(h);
    forall j | 0 <= j < |dates|
      ensures Weekday(dates[j]) == 6
    {
      if j >= |h| {
        SundayShift(h[|h| - 1].week, j - |h| + 1);
      }
    }
  }

  /** The weekly history adds up to the total of every dated value of the anchored
      table, missing values counting as zero. */
  lemma TrainedTotal(a: Table, column: string, fit: seq<Bucket> -> Model)
    requires WellFormed(a) && "ds" in a.columns && "y" in a.columns
    requires Latest(Stamps(Column(a, "ds"))).Some?
    requires Trained(a, column, fit).Success?
    ensures var f := Trained(a, column, fit).value;
      var x := Samples(Stamps(Column(a, "ds")), Column(a, "y"));
      && f.history == Weekly(x)
      && Sum(Totals(f.history)) == Sum(Ys(x))
  {
    SamplesNonEmpty(Stamps(Column(a, "ds")), Column(a, "y"));
    WeeklyTotal(Samples(Stamps(Column(a, "ds")), Column(a, "y")));
  }

  /** `forecast_metric` on a table value: lines 7-24. */
  function Forecasted(t: Table, column: string, parse: DateParser, fit: seq<Bucket> -> Model): (r: Result<Forecast, ForecastError>)
    requires WellFormed(t)
  {
    var u :- Prepared(t, column, parse);
    var a :- Anchored(u);
    AnchoredInDecember(u);
    Trained(a, column, fit)
  }

  /** `forecast_metric` (lines 6-26): works on a copy of the caller's table, which it
      does not change. */
  method ForecastMetric(df: Frame, column: string, parse: DateParser, fit: seq<Bucket> -> Model)
    returns (r: Result<Forecast, ForecastError>)
    requires WellFormed(df.Snapshot())
    ensures r == Forecasted(df.Snapshot(), column, parse, fit)
  {
    var local := new Frame(df.Snapshot());
    var cells := Get(local.Snapshot(), "date");
    if cells.Failure? {
      return Failure(cells.error);
    }
    var dates := InsightsEngine.ToDatetimeColumn(cells.value, parse);
    if dates.Failure? {
      return Failure(UnparseableDate);
    }
    local.Assign("ds", dates.value);
    var ys := Get(local.Snapshot(), column);
    if ys.Failure? {
      return Failure(ys.error);
    }
    local.Assign("y", ys.value);
    ghost var u := local.Snapshot();
    assert u == Prepared(df.Snapshot(), column, parse).value;
    var ds := Stamps(Column(local.Snapshot(), "ds"));
    var last := Latest(ds);
    if last.None? {
      return Failure(NoDates);
    }
    if last.value.month != 12 {
      var y := Column(local.Snapshot(), "y")[FirstAt(ds, last.value)];
      local.Append(AnchorRow(local.Snapshot(), DecemberFirst(last.value.year), y));
    }
    assert local.Snapshot() == Anchored(u).value;
    AnchoredInDecember(u);
    r := Trained(local.Snapshot(), column, fit);
  }

  /** Lines 36-37: among the rows dated strictly after `after`, the first one with the
      lowest prediction (`idxmin` returns the first minimum); None when there is none. */
  function DipIndex(rows: seq<Row>, after: int): (r: Option<nat>)
    ensures r.None? <==> forall j :: 0 <= j < |rows| ==> rows[j].ds <= after
    ensures r.Some? ==> r.value < |rows| && rows[r.value].ds > after
    ensures r.Some? ==> forall j :: 0 <= j < |rows| && rows[j].ds > after ==> rows[r.value].yhat <= rows[j].yhat
    ensures r.Some? ==> forall j :: 0 <= j < r.value && rows[j].ds > after ==> rows[r.value].yhat < rows[j].yhat
  {
    if rows == [] then None
    else
      var rest := DipIndex(rows[1..], after);
      assert forall j :: 1 <= j < |rows| ==> rows[j] == rows[1..][j - 1];
      if rows[0].ds <= after then
        (if rest.None? then None else Some(rest.value + 1))
      else if rest.Some? && rows[rest.value + 1].yhat < rows[0].yhat then Some(rest.value + 1)
      else Some(0)
  }

  /** Lines 35-38 of `plot_forecast`: the dip the chart annotates, among the forecast
      rows after the latest date of the historical table. */
  function Dip(hist: Table, f: Forecast, parse: DateParser): (r: Result<Row, ForecastError>)
    requires WellFormed(hist)
  {
    var cells :- Get(hist, "date");
    var dates :- match InsightsEngine.ToDatetimeColumn(cells, parse)
                 case Success(d) => Success(d)
                 case Failure(_) => Failure(UnparseableDate);
    match Latest(Stamps(dates))
    case None => Failure(NoFutureRows)   // every comparison with NaT is false
    case Some(latest) =>
      match DipIndex(f.rows, Ordinal(latest))
      case None => Failure(NoFutureRows)
      case Some(i) => Success(f.rows[i])
  }

  /** The last prediction date lies after every sample. */
  lemma LastDateAfterSamples(x: seq<Sample>, i: nat)
    requires i < |x|
    ensures var ds := FutureDates(Weekly(x));
      ds[|ds| - 1] > x[i].day
  {
    WeeklySpan(x);
    var h := Weekly(x);
    var ds := FutureDates(h);
    assert ds[|ds| - 1] == h[|h| - 1].week + 7 * FuturePeriods;
  }

  /** The dates `plot_forecast` parses again are those of the prepared `ds` column. */
  lemma DatesParsedAgain(t: Table, column: string, parse: DateParser)
    requires WellFormed(t) && Prepared(t, column, parse).Success?
    ensures var u := Prepared(t, column, parse).value;
      && "date" in t.columns
      && InsightsEngine.ToDatetimeColumn(Column(t, "date"), parse).Success?
      && Stamps(InsightsEngine.ToDatetimeColumn(Column(t, "date"), parse).value) == Stamps(Column(u, "ds"))
  {
  }

  /** The last prediction date lies after the latest date before anchoring. */
  lemma TrainedAfterLatest(u: Table, column: string, fit: seq<Bucket> -> Model)
    requires WellFormed(u) && "ds" in u.columns && "y" in u.columns
    requires Anchored(u).Success?
    requires Latest(Stamps(Column(Anchored(u).value, "ds"))).Some?
    requires Trained(Anchored(u).value, column, fit).Success?
    ensures var rows := Trained(Anchored(u).value, column, fit).value.rows;
      |rows| > 0 && rows[|rows| - 1].ds > Ordinal(Latest(Stamps(Column(u, "ds"))).value)
  {
    AnchorKeepsDates(u);
    TrainedAfterPrefix(Stamps(Column(u, "ds")), Anchored(u).value, column, fit);
  }

  /** The last prediction date lies after the latest date of rows that the table
      keeps at its front. */
  lemma TrainedAfterPrefix(dsU: seq<Option<Date>>, a: Table, column: string, fit: seq<Bucket> -> Model)
    requires WellFormed(a) && "ds" in a.columns && "y" in a.columns
    requires Latest(Stamps(Column(a, "ds"))).Some? && Latest(dsU).Some?
    requires Trained(a, column, fit).Success?
    requires |dsU| <= |a.rows| && forall i :: 0 <= i < |dsU| ==> Stamps(Column(a, "ds"))[i] == dsU[i]
    ensures var rows := Trained(a, column, fit).value.rows;
      |rows| > 0 && rows[|rows| - 1].ds > Ordinal(Latest(dsU).value)
  {
    var i0 :| 0 <= i0 < |dsU| && dsU[i0] == Latest(dsU);
    TrainedAfterRow(a, column, fit, i0);
  }

  /** Anchoring keeps the date of every original row. */
  lemma AnchorKeepsDates(u: Table)
    requires WellFormed(u) && "ds" in u.columns && "y" in u.columns
    requires Anchored(u).Success?
    ensures var a := Anchored(u).value;
      |u.rows| <= |a.rows| &&
      forall i :: 0 <= i < |u.rows| ==> Stamps(Column(a, "ds"))[i] == Stamps(Column(u, "ds"))[i]
  {
    AnchorKeepsPoints(u);
  }

  /** The last prediction date lies after every dated row. */
  lemma TrainedAfterRow(a: Table, column: string, fit: seq<Bucket> -> Model, i0: nat)
    requires WellFormed(a) && "ds" in a.columns && "y" in a.columns
    requires Latest(Stamps(Column(a, "ds"))).Some?
    requires Trained(a, column, fit).Success?
    requires i0 < |a.rows| && Stamps(Column(a, "ds"))[i0].Some?
    ensures var rows := Trained(a, column, fit).value.rows;
      |rows| > 0 && rows[|rows| - 1].ds > Ordinal(Stamps(Column(a, "ds"))[i0].value)
  {
    var dsA, ysA := Stamps(Column(a, "ds")), Column(a, "y");
    SamplesOfRows(dsA, ysA);
    var x := Samples(dsA, ysA);
    var k :| 0 <= k < |x| && x[k] == SampleAt(dsA, ysA, i0);
    LastDateAfterSamples(x, k);
  }

  /** The dip of a forecast always exists on the table it was made from: the 26 future
      weeks lie after the latest date. */
  lemma DipExists(t: Table, column: string, parse: DateParser, fit: seq<Bucket> -> Model)
    requires WellFormed(t) && Forecasted(t, column, parse, fit).Success?
    ensures Dip(t, Forecasted(t, column, parse, fit).value, parse).Success?
  {
    var u := Prepared(t, column, parse).value;
    DatesParsedAgain(t, column, parse);
    AnchoredInDecember(u);
    TrainedAfterLatest(u, column, fit);
    DipWhenLater(t, Forecasted(t, column, parse, fit).value, parse, Latest(Stamps(Column(u, "ds"))).value);
  }

  /** A dip exists as soon as the last forecast row lies after the latest date. */
  lemma DipWhenLater(hist: Table, f: Forecast, parse: DateParser, latest: Date)
    requires WellFormed(hist) && "date" in hist.columns
    requires InsightsEngine.ToDatetimeColumn(Column(hist, "date"), parse).Success?
    requires Latest(Stamps(InsightsEngine.ToDatetimeColumn(Column(hist, "date"), parse).value)) == Some(latest)
    requires |f.rows| > 0 && f.rows[|f.rows| - 1].ds > Ordinal(latest)
    ensures Dip(hist, f, parse).Success?
  {
  }
}
