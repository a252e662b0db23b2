/** The insight generator: monthly, regional and product revenue aggregates, a cost
    warning, average acquisition cost and margin, and the sign of the correlation
    between head count and profit. It adds working columns to the caller's table
    while it runs. */
module InsightsEngine {

  import opened Results
  import opened Seqs
  import opened Floats
  import opened Calendar
  import opened Tables
  import CleanData

  // ---------------------------------------------------------------------------
  // Outcomes.

  /** Why the generator stops: a `KeyError` on a missing column, `pd.to_datetime`
      refusing a date, arithmetic or a sum over a non-number, or `idxmax` / `idxmin`
      of an empty grouping (every key missing). */
  datatype InsightError =
    | MissingColumn(name: string)
    | UnparseableDate
    | NonNumeric(name: string)
    | NoGroups(key: string)

  datatype Relationship = Negative | Positive | NoRelationship

  /** The content of one insight; the text the source formats from it is given by
      `CostWarningMessage` and `EmployeeMessage` where no number formatting is
      involved. */
  datatype Insight =
    | TopMonth(month: YearMonth, revenue: real)
    | LossMonth(month: YearMonth, revenue: real)
    | CostWarning(records: nat)
    | AverageCac(cac: Float)
    | AverageMargin(margin: Float)
    | BestRegion(region: Cell, revenue: real)
    | BestProduct(product: Cell, units: real)
    | EmployeeProfit(relation: Relationship)

  const TopMonthKey := "top_month"
  const LossMonthKey := "loss_month"
  const CostWarningKey := "cost_warning"
  const AvgCacKey := "avg_cac"
  const AvgMarginKey := "avg_margin"
  const BestRegionKey := "best_region"
  const BestProductKey := "best_product"
  const EmployeeProfitKey := "employee_profit"

  /** The keys every successful run reports; `cost_warning` is the only optional one. */
  const AlwaysKeys: seq<string> :=
    [TopMonthKey, LossMonthKey, AvgCacKey, AvgMarginKey, BestRegionKey, BestProductKey, EmployeeProfitKey]

  /** The working columns the generator writes into its argument. */
  const AddedColumns: seq<string> :=
    ["date", "month", "total_cost", "cost_to_revenue_ratio", "customer_acquisition_cost", "profit_margin"]

  function CostWarningMessage(records: nat): string
  {
    "High cost-to-revenue ratio in " + CleanData.NatToString(records) + " records. Review cost control strategies."
  }

  function EmployeeMessage(r: Relationship): string
  {
    match r
    case Negative => "Higher employee count is negatively correlated with net profit. Consider optimizing team size."
    case Positive => "Higher employee count positively contributes to net profit."
    case NoRelationship => "No significant relationship found between employee count and profit."
  }

  // ---------------------------------------------------------------------------
  // Reading columns.

  /** `df[name]`. */
  function Lookup(t: Table, name: string): (r: Result<seq<Cell>, InsightError>)
    requires WellFormed(t)
    ensures r.Failure? <==> name !in t.columns
    ensures r.Failure? ==> r.error == MissingColumn(name)
    ensures r.Success? ==> r.value == Column(t, name)
  {
    if name in t.columns then Success(Column(t, name)) else Failure(MissingColumn(name))
  }

  /** The numbers of a column used in arithmetic or a sum; only plain numbers are read. */
  function AsReals(name: string, cells: seq<Cell>): (r: Result<seq<real>, InsightError>)
    ensures r.Success? <==> forall i :: 0 <= i < |cells| ==> cells[i].Num?
    ensures r.Failure? ==> r.error == NonNumeric(name)
    ensures r.Success? ==> |r.value| == |cells| && forall i :: 0 <= i < |cells| ==> cells[i] == Num(r.value[i])
  {
    if forall i :: 0 <= i < |cells| ==> cells[i].Num? then
      Success(seq(|cells|, i requires 0 <= i < |cells| => cells[i].v))
    else
      Failure(NonNumeric(name))
  }

  function Numeric(t: Table, name: string): (r: Result<seq<real>, InsightError>)
    requires WellFormed(t)
    ensures r.Success? ==> |r.value| == |t.rows|
  {
    var cells :- Lookup(t, name);
    AsReals(name, cells)
  }

  function Nums(xs: seq<real>): (r: seq<Cell>)
    ensures |r| == |xs|
  {
    seq(|xs|, i requires 0 <= i < |xs| => Num(xs[i]))
  }

  // ---------------------------------------------------------------------------
  // Dates and months (lines 8-9).

  /** `pd.to_datetime` on one cell, raising (None) on a value it cannot read. */
  function ToDatetime(parse: DateParser, c: Cell): (r: Option<Cell>)
    ensures r.Some? ==> r.value.Stamp? || r.value.Missing?
    ensures c.Stamp? || c.Missing? ==> r == Some(c)
  {
    match c
    case Stamp(_) => Some(c)
    case Missing => Some(Missing)
    case _ =>
      match parse(c)
      case Some(d) => Some(Stamp(d))
      case None => None
  }

  function ToDatetimeColumn(cells: seq<Cell>, parse: DateParser): (r: Result<seq<Cell>, InsightError>)
    ensures r.Success? <==> forall i :: 0 <= i < |cells| ==> ToDatetime(parse, cells[i]).Some?
    ensures r.Failure? ==> r.error == UnparseableDate
    ensures r.Success? ==> |r.value| == |cells|
    ensures r.Success? ==> forall i :: 0 <= i < |cells| ==> Some(r.value[i]) == ToDatetime(parse, cells[i])
  {
    if forall i :: 0 <= i < |cells| ==> ToDatetime(parse, cells[i]).Some? then
      Success(seq(|cells|, i requires 0 <= i < |cells| => ToDatetime(parse, cells[i]).value))
    else
      Failure(UnparseableDate)
  }

  /** `.dt.to_period('M')` on one cell: NaT stays missing. */
  function MonthCell(c: Cell): (r: Cell)
    ensures r.Period? || r.Missing?
  {
    if c.Stamp? then Period(MonthOf(c.date)) else Missing
  }

  function Months(dates: seq<Cell>): (r: seq<Cell>)
    ensures |r| == |dates| && forall i :: 0 <= i < |r| ==> r[i].Period? || r[i].Missing?
  {
    seq(|dates|, i requires 0 <= i < |dates| => MonthCell(dates[i]))
  }

  // ---------------------------------------------------------------------------
  // Order of group keys.

  /** Code-point order on strings (Python's `<` on `str`). */
  predicate StringBefore(a: string, b: string)
    decreases |a|
  {
    if a == [] then b != []
    else if b == [] then false
    else if a[0] != b[0] then a[0] < b[0]
    else StringBefore(a[1..], b[1..])
  }

  lemma {:induction false} StringBeforeTransitive(a: string, b: string, c: string)
    ensures StringBefore(a, b) && StringBefore(b, c) ==> StringBefore(a, c)
    decreases |a|
  {
    if a != [] && b != [] && c != [] && a[0] == b[0] && b[0] == c[0] {
      StringBeforeTransitive(a[1..], b[1..], c[1..]);
    }
  }

  lemma {:induction false} StringBeforeAsymmetric(a: string, b: string)
    ensures StringBefore(a, b) ==> !StringBefore(b, a)
    decreases |a|
  {
    if a != [] && b != [] && a[0] == b[0] {
      StringBeforeAsymmetric(a[1..], b[1..]);
    }
  }

  lemma {:induction false} StringBeforeTotal(a: string, b: string)
    ensures a == b || StringBefore(a, b) || StringBefore(b, a)
    decreases |a|
  {
    if a != [] && b != [] && a[0] == b[0] {
      StringBeforeTotal(a[1..], b[1..]);
      assert a == [a[0]] + a[1..] && b == [b[0]] + b[1..];
    }
  }

  function KindRank(c: Cell): int
  {
    match c
    case Missing => 0
    case Num(_) => 1
    case Inf(_) => 1
    case Text(_) => 2
    case Stamp(_) => 3
    case Period(_) => 4
  }

  /** Position of a number among the numbers: `-inf`, the finite values, `+inf`. */
  function NumRank(c: Cell): int
  {
    match c
    case Inf(negative) => if negative then -1 else 1
    case _ => 0
  }

  predicate DateBefore(a: Date, b: Date)
  {
    a.year < b.year || (a.year == b.year && (a.month < b.month || (a.month == b.month && a.day < b.day)))
  }

  /** The ascending order in which `groupby` sorts its keys: numbers by value, strings by
      code point, timestamps and periods chronologically. Keys of different kinds are
      ordered by kind. */
  predicate KeyBefore(a: Cell, b: Cell)
  {
    if KindRank(a) != KindRank(b) then KindRank(a) < KindRank(b)
    else match a
      case Missing => false
      case Text(x) => StringBefore(x, b.s)
      case Stamp(d) => DateBefore(d, b.date)
      case Period(m) => MonthBefore(m, b.period)
      case _ => NumRank(a) < NumRank(b) || (a.Num? && b.Num? && a.v < b.v)
  }

  lemma KeyBeforeIrreflexive(a: Cell)
    ensures !KeyBefore(a, a)
  {
    if a.Text? {
      StringBeforeAsymmetric(a.s, a.s);
    }
  }

  lemma KeyBeforeTransitive(a: Cell, b: Cell, c: Cell)
    ensures KeyBefore(a, b) && KeyBefore(b, c) ==> KeyBefore(a, c)
  {
    if a.Text? && b.Text? && c.Text? {
      StringBeforeTransitive(a.s, b.s, c.s);
    }
  }

  lemma KeyBeforeTotal(a: Cell, b: Cell)
    ensures a == b || KeyBefore(a, b) || KeyBefore(b, a)
  {
    if a.Text? && b.Text? {
      StringBeforeTotal(a.s, b.s);
    }
  }

  // ---------------------------------------------------------------------------
  // Group sums and their extremes.

  /** `df.groupby(keys)[vals].sum()` at key `k`: the total over the rows with that key. */
  function GroupSum(keys: seq<Cell>, vals: seq<real>, k: Cell): real
    requires |keys| == |vals|
  {
    if keys == [] then 0.0
    else (if keys[0] == k then vals[0] else 0.0) + GroupSum(keys[1..], vals[1..], k)
  }

  function Totals(keys: seq<Cell>, vals: seq<real>): Cell -> real
    requires |keys| == |vals|
  {
    (k: Cell) => GroupSum(keys, vals, k)
  }

  function NegatedTotals(keys: seq<Cell>, vals: seq<real>): Cell -> real
    requires |keys| == |vals|
  {
    (k: Cell) => -GroupSum(keys, vals, k)
  }

  /** Among the first `n` rows with a key, a row whose key scores highest; on a tie the
      candidate whose key comes first in key order wins. None when every key is missing
      (`groupby` drops missing keys). */
  function BestKey(keys: seq<Cell>, score: Cell -> real, n: nat): (r: Option<nat>)
    requires n <= |keys|
    ensures r.None? <==> forall i :: 0 <= i < n ==> keys[i].Missing?
    ensures r.Some? ==> r.value < n && !keys[r.value].Missing?
    ensures r.Some? ==> forall i :: 0 <= i < n && !keys[i].Missing? ==> score(keys[i]) <= score(keys[r.value])
  {
    if n == 0 then None
    else
      var b := BestKey(keys, score, n - 1);
      var c := keys[n - 1];
      if c.Missing? then b
      else if b.None? then Some(n - 1)
      else if score(c) > score(keys[b.value]) || (score(c) == score(keys[b.value]) && KeyBefore(c, keys[b.value])) then
        Some(n - 1)
      else b
  }

  /** No key that ties with the winner comes before it. */
  lemma {:induction false} BestKeyEarliest(keys: seq<Cell>, score: Cell -> real, n: nat)
    requires n <= |keys| && BestKey(keys, score, n).Some?
    ensures forall i :: 0 <= i < n && !keys[i].Missing? && score(keys[i]) == score(keys[BestKey(keys, score, n).value]) ==>
              !KeyBefore(keys[i], keys[BestKey(keys, score, n).value])
  {
    var r := BestKey(keys, score, n).value;
    var p := BestKey(keys, score, n - 1);
    var b := keys[r];
    KeyBeforeIrreflexive(b);
    if p.Some? {
      BestKeyEarliest(keys, score, n - 1);
      var pb := keys[p.value];
      if r == n - 1 {
        forall i | 0 <= i < n - 1 && !keys[i].Missing? && score(keys[i]) == score(b)
          ensures !KeyBefore(keys[i], b)
        {
          assert score(b) == score(pb) && KeyBefore(b, pb);
          KeyBeforeTransitive(keys[i], b, pb);
        }
      }
    }
  }

  /** `series.idxmax()` of the group totals: the key of the largest total. */
  function ArgMax(keys: seq<Cell>, vals: seq<real>): (r: Option<Cell>)
    requires |keys| == |vals|
    ensures r.None? <==> forall i :: 0 <= i < |keys| ==> keys[i].Missing?
    ensures r.Some? ==> r.value in keys && !r.value.Missing?
  {
    var b := BestKey(keys, Totals(keys, vals), |keys|);
    if b.None? then None else Some(keys[b.value])
  }

  /** `series.idxmin()` of the group totals: the key of the smallest total. */
  function ArgMin(keys: seq<Cell>, vals: seq<real>): (r: Option<Cell>)
    requires |keys| == |vals|
    ensures r.None? <==> forall i :: 0 <= i < |keys| ==> keys[i].Missing?
    ensures r.Some? ==> r.value in keys && !r.value.Missing?
  {
    var b := BestKey(keys, NegatedTotals(keys, vals), |keys|);
    if b.None? then None else Some(keys[b.value])
  }

  /** The arg-max key has the largest group total, and among the keys with that total it
      is the first in sorted key order (the label pandas reports). */
  lemma ArgMaxMaximal(keys: seq<Cell>, vals: seq<real>)
    requires |keys| == |vals| && ArgMax(keys, vals).Some?
    ensures forall i :: 0 <= i < |keys| && !keys[i].Missing? ==>
              GroupSum(keys, vals, keys[i]) <= GroupSum(keys, vals, ArgMax(keys, vals).value)
    ensures forall i ::
              (0 <= i < |keys| && !keys[i].Missing? &&
               GroupSum(keys, vals, keys[i]) == GroupSum(keys, vals, ArgMax(keys, vals).value)) ==>
              keys[i] == ArgMax(keys, vals).value || KeyBefore(ArgMax(keys, vals).value, keys[i])
  {
    var score := Totals(keys, vals);
    var b := BestKey(keys, score, |keys|).value;
    BestKeyEarliest(keys, score, |keys|);
    forall i | 0 <= i < |keys| && !keys[i].Missing?
      ensures GroupSum(keys, vals, keys[i]) <= GroupSum(keys, vals, keys[b])
      ensures GroupSum(keys, vals, keys[i]) == GroupSum(keys, vals, keys[b]) ==> keys[i] == keys[b] || KeyBefore(keys[b], keys[i])
    {
      assert score(keys[i]) <= score(keys[b]);
      KeyBeforeTotal(keys[i], keys[b]);
    }
  }

  /** The arg-min key has the smallest group total, and among the keys with that total it
      is the first in sorted key order. */
  lemma ArgMinMinimal(keys: seq<Cell>, vals: seq<real>)
    requires |keys| == |vals| && ArgMin(keys, vals).Some?
    ensures forall i :: 0 <= i < |keys| && !keys[i].Missing? ==>
              GroupSum(keys, vals, ArgMin(keys, vals).value) <= GroupSum(keys, vals, keys[i])
    ensures forall i ::
              (0 <= i < |keys| && !keys[i].Missing? &&
               GroupSum(keys, vals, keys[i]) == GroupSum(keys, vals, ArgMin(keys, vals).value)) ==>
              keys[i] == ArgMin(keys, vals).value || KeyBefore(ArgMin(keys, vals).value, keys[i])
  {
    var score := NegatedTotals(keys, vals);
    var b := BestKey(keys, score, |keys|).value;
    BestKeyEarliest(keys, score, |keys|);
    forall i | 0 <= i < |keys| && !keys[i].Missing?
      ensures GroupSum(keys, vals, keys[b]) <= GroupSum(keys, vals, keys[i])
      ensures GroupSum(keys, vals, keys[i]) == GroupSum(keys, vals, keys[b]) ==> keys[i] == keys[b] || KeyBefore(keys[b], keys[i])
    {
      assert score(keys[i]) <= score(keys[b]);
      KeyBeforeTotal(keys[i], keys[b]);
    }
  }

  /** Top and lowest months (lines 12-16). */
  function MonthlyRevenue(months: seq<Cell>, revenue: seq<real>): (r: Result<(Insight, Insight), InsightError>)
    requires |months| == |revenue|
    requires forall i :: 0 <= i < |months| ==> months[i].Period? || months[i].Missing?
    ensures r.Failure? <==> forall i :: 0 <= i < |months| ==> months[i].Missing?
    ensures r.Failure? ==> r.error == NoGroups("month")
  {
    var top := ArgMax(months, revenue);
    var loss := ArgMin(months, revenue);
    if top.None? || loss.None? then Failure(NoGroups("month"))
    else
      Success((TopMonth(top.value.period, GroupSum(months, revenue, top.value)),
               LossMonth(loss.value.period, GroupSum(months, revenue, loss.value))))
  }

  /** The top month is a month of the data whose summed revenue is the largest, the lowest
      month one whose sum is the smallest; each reports its own sum, and each is the
      earliest month among those with the same sum. */
  lemma MonthlyRevenueExtremes(months: seq<Cell>, revenue: seq<real>)
    requires |months| == |revenue|
    requires forall i :: 0 <= i < |months| ==> months[i].Period? || months[i].Missing?
    requires MonthlyRevenue(months, revenue).Success?
    ensures var (top, loss) := MonthlyRevenue(months, revenue).value;
      && Period(top.month) in months && top.revenue == GroupSum(months, revenue, Period(top.month))
      && Period(loss.month) in months && loss.revenue == GroupSum(months, revenue, Period(loss.month))
      && (forall i :: 0 <= i < |months| && months[i].Period? ==>
            loss.revenue <= GroupSum(months, revenue, months[i]) <= top.revenue)
      && (forall i :: 0 <= i < |months| && months[i].Period? && GroupSum(months, revenue, months[i]) == top.revenue ==>
            !MonthBefore(months[i].period, top.month))
      && (forall i :: 0 <= i < |months| && months[i].Period? && GroupSum(months, revenue, months[i]) == loss.revenue ==>
            !MonthBefore(months[i].period, loss.month))
  {
    var top := ArgMax(months, revenue).value;
    var loss := ArgMin(months, revenue).value;
    ArgMaxMaximal(months, revenue);
    ArgMinMinimal(months, revenue);
    assert top.Period? && loss.Period?;
    forall i | 0 <= i < |months| && months[i].Period?
      ensures GroupSum(months, revenue, months[i]) == GroupSum(months, revenue, top) ==> !MonthBefore(months[i].period, top.period)
      ensures GroupSum(months, revenue, months[i]) == GroupSum(months, revenue, loss) ==> !MonthBefore(months[i].period, loss.period)
    {
    }
  }

  /** A region or product with the largest total (lines 36-43). */
  function TopGroup(name: string, keys: seq<Cell>, vals: seq<real>): (r: Result<(Cell, real), InsightError>)
    requires |keys| == |vals|
    ensures r.Failure? <==> forall i :: 0 <= i < |keys| ==> keys[i].Missing?
    ensures r.Failure? ==> r.error == NoGroups(name)
  {
    match ArgMax(keys, vals)
    case None => Failure(NoGroups(name))
    case Some(k) => Success((k, GroupSum(keys, vals, k)))
  }

  /** The reported group occurs in the data, its total is its own group sum, and no
      group has a larger total. */
  lemma TopGroupMaximal(name: string, keys: seq<Cell>, vals: seq<real>)
    requires |keys| == |vals| && TopGroup(name, keys, vals).Success?
    ensures var (k, total) := TopGroup(name, keys, vals).value;
      && k in keys && !k.Missing? && total == GroupSum(keys, vals, k)
      && (forall i :: 0 <= i < |keys| && !keys[i].Missing? ==> GroupSum(keys, vals, keys[i]) <= total)
      && (forall i :: 0 <= i < |keys| && !keys[i].Missing? && GroupSum(keys, vals, keys[i]) == total ==>
            keys[i] == k || KeyBefore(k, keys[i]))
  {
    ArgMaxMaximal(keys, vals);
  }

  // ---------------------------------------------------------------------------
  // Costs (lines 19-23).

  function TotalCost(opex: seq<real>, marketing: seq<real>, cogs: seq<real>): (r: seq<real>)
    requires |opex| == |marketing| == |cogs|
    ensures |r| == |opex|
  {
    seq(|opex|, i requires 0 <= i < |opex| => opex[i] + marketing[i] + cogs[i])
  }

  function CostRatio(total: real, revenue: real): Float
  {
    Div(Fin(total), Fin(revenue))
  }

  function CostRatios(total: seq<real>, revenue: seq<real>): (r: seq<Float>)
    requires |total| == |revenue|
    ensures |r| == |total|
  {
    seq(|total|, i requires 0 <= i < |total| => CostRatio(total[i], revenue[i]))
  }

  predicate HighCost(ratio: Float)
  {
    Greater(ratio, Fin(0.8))
  }

  /** `len(df[df['cost_to_revenue_ratio'] > 0.8])`. */
  function HighCostCount(ratios: seq<Float>): nat
  {
    |Filter(ratios, HighCost)|
  }

  /** A row is flagged exactly when its costs exceed 80% of a positive revenue, fall
      below 80% of a negative one, or are positive against no revenue at all (the ratio
      is then `+inf`; `0/0` is NaN and never flagged). */
  lemma HighCostRow(total: real, revenue: real)
    ensures HighCost(CostRatio(total, revenue)) <==>
              if revenue > 0.0 then total > 0.8 * revenue
              else if revenue < 0.0 then total < 0.8 * revenue
              else total > 0.0
  {
    if revenue != 0.0 {
      var q := total / revenue;
      assert q * revenue == total;
      if revenue > 0.0 {
        assert q > 0.8 <==> q * revenue > 0.8 * revenue;
      } else {
        assert q > 0.8 <==> q * revenue < 0.8 * revenue;
      }
    }
  }

  /** The warning's count is positive exactly when some row is flagged. */
  lemma HighCostCountPositive(ratios: seq<Float>)
    ensures HighCostCount(ratios) > 0 <==> exists i :: 0 <= i < |ratios| && HighCost(ratios[i])
  {
    var f := Filter(ratios, HighCost);
    if |f| > 0 {
      assert f[0] in ratios && HighCost(f[0]);
    }
  }

  // ---------------------------------------------------------------------------
  // Customer acquisition cost (lines 26-28).

  /** `marketing_cost / new_customers_acquired.replace(0, nan)` on one row. */
  function CustomerCost(marketing: real, customers: real): Float
  {
    Div(Fin(marketing), if customers == 0.0 then NaN else Fin(customers))
  }

  function Acquisition(marketing: seq<real>, customers: seq<real>): (r: seq<Float>)
    requires |marketing| == |customers|
    ensures |r| == |marketing|
  {
    seq(|marketing|, i requires 0 <= i < |marketing| => CustomerCost(marketing[i], customers[i]))
  }

  /** The cost per new customer on the rows that acquired some customers, in order. */
  function PerCustomer(marketing: seq<real>, customers: seq<real>): seq<real>
    requires |marketing| == |customers|
  {
    if marketing == [] then []
    else (if customers[0] == 0.0 then [] else [marketing[0] / customers[0]]) + PerCustomer(marketing[1..], customers[1..])
  }

  function Fins(xs: seq<real>): (r: seq<Float>)
    ensures |r| == |xs|
  {
    seq(|xs|, i requires 0 <= i < |xs| => Fin(xs[i]))
  }

  lemma {:induction false} AcquisitionNonNaN(marketing: seq<real>, customers: seq<real>)
    requires |marketing| == |customers|
    ensures NonNaN(Acquisition(marketing, customers)) == Fins(PerCustomer(marketing, customers))
  {
    if marketing != [] {
      var s := Acquisition(marketing, customers);
      var rest := PerCustomer(marketing[1..], customers[1..]);
      assert s[1..] == Acquisition(marketing[1..], customers[1..]);
      AcquisitionNonNaN(marketing[1..], customers[1..]);
      if customers[0] == 0.0 {
        assert s[0].NaN?;
        assert PerCustomer(marketing, customers) == rest;
      } else {
        assert s[0] == Fin(marketing[0] / customers[0]);
        assert Fins([marketing[0] / customers[0]] + rest) == [s[0]] + Fins(rest);
      }
    }
  }

  /** The average acquisition cost is the mean of the cost per customer over the rows
      with a nonzero customer count only; it is NaN when there is no such row. */
  lemma AvgCacOverNonzero(marketing: seq<real>, customers: seq<real>)
    requires |marketing| == |customers|
    ensures var q := PerCustomer(marketing, customers);
      NanMean(Acquisition(marketing, customers)) ==
        if |q| == 0 then NaN else Fin(Sum(q) / (|q| as real))
  {
    var s := Acquisition(marketing, customers);
    var q := PerCustomer(marketing, customers);
    assert forall i :: 0 <= i < |s| ==> s[i].Fin? || s[i].NaN?;
    NanMeanOfFinite(s);
    AcquisitionNonNaN(marketing, customers);
    assert Reals(Fins(q)) == q;
  }

  // ---------------------------------------------------------------------------
  // Profit margin (lines 31-33).

  /** `((revenue - cogs) / revenue) * 100` on one row. */
  function Margin(revenue: real, cogs: real): Float
  {
    Mul(Div(Fin(revenue - cogs), Fin(revenue)), Fin(100.0))
  }

  function Margins(revenue: seq<real>, cogs: seq<real>): (r: seq<Float>)
    requires |revenue| == |cogs|
    ensures |r| == |revenue|
  {
    seq(|revenue|, i requires 0 <= i < |revenue| => Margin(revenue[i], cogs[i]))
  }

  function MarginPercent(revenue: real, cogs: real): real
    requires revenue != 0.0
  {
    (revenue - cogs) / revenue * 100.0
  }

  /** With revenue on every row, the average margin is the mean over all rows. */
  lemma AvgMarginOverRows(revenue: seq<real>, cogs: seq<real>)
    requires |revenue| == |cogs|
    requires forall i :: 0 <= i < |revenue| ==> revenue[i] != 0.0
    ensures NanMean(Margins(revenue, cogs)) ==
              if |revenue| == 0 then NaN
              else Fin(Sum(seq(|revenue|, i requires 0 <= i < |revenue| => MarginPercent(revenue[i], cogs[i])))
                       / (|revenue| as real))
  {
    var s := Margins(revenue, cogs);
    var pm := seq(|revenue|, i requires 0 <= i < |revenue| => MarginPercent(revenue[i], cogs[i]));
    assert forall i :: 0 <= i < |s| ==> s[i] == Fin(pm[i]);
    FilterAll(s, (x: Float) => !x.NaN?);
    NanMeanOfFinite(s);
    assert Reals(s) == pm;
  }

  /** A row without revenue has an undefined margin when it has no cost of goods either
      (the mean then skips it) and an infinite one otherwise. */
  lemma MarginOfZeroRevenue(cogs: real)
    ensures Margin(0.0, cogs).NaN? <==> cogs == 0.0
    ensures cogs < 0.0 ==> Margin(0.0, cogs) == PosInf
    ensures cogs > 0.0 ==> Margin(0.0, cogs) == NegInf
  {
  }

  // ---------------------------------------------------------------------------
  // Head count against profit (lines 46-52).

  /** The product of the deviations of the point `(a, b)` from `(x, y)`. */
  function Term(x: real, y: real, a: real, b: real): real
  {
    (x - a) * (y - b)
  }

  /** The terms `Term(x, y, xs[j], ys[j])`, one per row `j`. */
  function Deviations(x: real, y: real, xs: seq<real>, ys: seq<real>): (r: seq<real>)
    requires |xs| == |ys|
    ensures |r| == |xs|
  {
    seq(|xs|, j requires 0 <= j < |xs| => Term(x, y, xs[j], ys[j]))
  }

  /** The terms `Sum(Deviations(xs[i], ys[i], xs[i+1..], ys[i+1..]))`, one per row `i`. */
  function PairTerms(xs: seq<real>, ys: seq<real>): (r: seq<real>)
    requires |xs| == |ys|
    ensures |r| == |xs|
  {
    seq(|xs|, i requires 0 <= i < |xs| => Sum(Deviations(xs[i], ys[i], xs[i + 1..], ys[i + 1..])))
  }

  /** Sum over the pairs of rows `i < j` of `(xs[i] - xs[j]) * (ys[i] - ys[j])`. This is n
      times the sum of the products of the deviations from the means (the Pearson
      numerator), so it has the sign of the covariance; `Comoment(xs, xs)` is n times the
      sum of squared deviations (`ComomentOfDeviations`, `RelationOfMeans`). */
  function Comoment(xs: seq<real>, ys: seq<real>): real
    requires |xs| == |ys|
  {
    Sum(PairTerms(xs, ys))
  }

  /** The sign of a Pearson coefficient with numerator `sxy` and squared spreads `sxx`
      and `syy`: the coefficient is `sxy / sqrt(sxx * syy)`, and NaN (neither below nor
      above zero) when either spread is zero. */
  function SignOfCorrelation(sxy: real, sxx: real, syy: real): Relationship
  {
    if sxx == 0.0 || syy == 0.0 then NoRelationship
    else if sxy < 0.0 then Negative
    else if sxy > 0.0 then Positive
    else NoRelationship
  }

  /** The sign of `Series.corr` between head count and profit. */
  function Relation(employees: seq<real>, profit: seq<real>): Relationship
    requires |employees| == |profit|
  {
    SignOfCorrelation(Comoment(employees, profit), Comoment(employees, employees), Comoment(profit, profit))
  }

  lemma ComomentSymmetric(xs: seq<real>, ys: seq<real>)
    requires |xs| == |ys|
    ensures Comoment(xs, ys) == Comoment(ys, xs)
  {
    forall i | 0 <= i < |xs|
      ensures Deviations(xs[i], ys[i], xs[i + 1..], ys[i + 1..]) == Deviations(ys[i], xs[i], ys[i + 1..], xs[i + 1..])
    {
    }
    assert PairTerms(xs, ys) == PairTerms(ys, xs);
  }

  // The pair sum against the usual sums. Products of sums are written with `Times`,
  // so that each step below rewrites one product at a time.

  /** Real multiplication, under a name. */
  function Times(a: real, b: real): real
  {
    a * b
  }

  /** The number of entries, as a real. */
  function Count(s: seq<real>): real
  {
    if s == [] then 0.0 else 1.0 + Count(s[1..])
  }

  /** The sum of the products `xs[i] * ys[i]`. */
  function Dot(xs: seq<real>, ys: seq<real>): real
    requires |xs| == |ys|
  {
    if xs == [] then 0.0 else Times(xs[0], ys[0]) + Dot(xs[1..], ys[1..])
  }

  /** The arithmetic mean of a non-empty series. */
  function Mean(s: seq<real>): real
    requires |s| > 0
  {
    Sum(s) / (|s| as real)
  }

  lemma {:induction false} CountLength(s: seq<real>)
    ensures Count(s) == |s| as real
  {
    if s != [] {
      CountLength(s[1..]);
    }
  }

  lemma {:induction false} DeviationsTail(x: real, y: real, xs: seq<real>, ys: seq<real>)
    requires |xs| == |ys| && xs != []
    ensures Sum(Deviations(x, y, xs, ys)) == Term(x, y, xs[0], ys[0]) + Sum(Deviations(x, y, xs[1..], ys[1..]))
  {
    forall j | 0 <= j < |xs| - 1
      ensures Deviations(x, y, xs, ys)[1..][j] == Deviations(x, y, xs[1..], ys[1..])[j]
    {
      assert xs[1..][j] == xs[j + 1] && ys[1..][j] == ys[j + 1];
    }
    assert Deviations(x, y, xs, ys)[1..] == Deviations(x, y, xs[1..], ys[1..]);
  }

  /** One step of `DeviationsExpanded`, as arithmetic on its sums. */
  lemma {:induction false} TermStep(x: real, y: real, a: real, b: real, xy: real,
                                    m: real, sa: real, sb: real, sp: real, rest: real)
    requires xy == x * y && rest == Times(m, xy) - Times(x, sb) - Times(y, sa) + sp
    ensures Term(x, y, a, b) + rest == Times(1.0 + m, xy) - Times(x, b + sb) - Times(y, a + sa) + (Times(a, b) + sp)
  {
  }

  /** The deviation terms of the rows from `(x, y)`, multiplied out; `xy` is `x * y`. */
  lemma {:induction false} DeviationsExpanded(x: real, y: real, xy: real, xs: seq<real>, ys: seq<real>)
    requires |xs| == |ys| && xy == x * y
    ensures Sum(Deviations(x, y, xs, ys)) == Times(Count(xs), xy) - Times(x, Sum(ys)) - Times(y, Sum(xs)) + Dot(xs, ys)
  {
    if xs != [] {
      DeviationsTail(x, y, xs, ys);
      DeviationsExpanded(x, y, xy, xs[1..], ys[1..]);
      TermStep(x, y, xs[0], ys[0], xy, Count(xs[1..]), Sum(xs[1..]), Sum(ys[1..]),
               Dot(xs[1..], ys[1..]), Sum(Deviations(x, y, xs[1..], ys[1..])));
    }
  }

  /** The pair sum splits into the pairs of the first row and the pair sum of the rest. */
  lemma {:induction false} ComomentTail(xs: seq<real>, ys: seq<real>)
    requires |xs| == |ys| && 0 < |xs|
    ensures Comoment(xs, ys) == Sum(Deviations(xs[0], ys[0], xs[1..], ys[1..])) + Comoment(xs[1..], ys[1..])
  {
    var xs', ys' := xs[1..], ys[1..];
    forall i | 0 <= i < |xs'|
      ensures PairTerms(xs, ys)[1..][i] == PairTerms(xs', ys')[i]
    {
      assert xs[i + 1 + 1..] == xs'[i + 1..] && ys[i + 1 + 1..] == ys'[i + 1..];
    }
    assert PairTerms(xs, ys)[1..] == PairTerms(xs', ys');
  }

  /** One step of `ComomentCounted`, as arithmetic on its sums. */
  lemma {:induction false} ComomentStep(x: real, y: real, xy: real, m: real, sa: real, sb: real, sp: real, first: real)
    requires xy == Times(x, y) && first == Times(m, xy) - Times(x, sb) - Times(y, sa) + sp
    ensures first + (Times(m, sp) - Times(sa, sb)) == Times(1.0 + m, xy + sp) - Times(x + sa, y + sb)
  {
  }

  lemma {:induction false} ComomentCounted(xs: seq<real>, ys: seq<real>)
    requires |xs| == |ys|
    ensures Comoment(xs, ys) == Times(Count(xs), Dot(xs, ys)) - Times(Sum(xs), Sum(ys))
  {
    if xs == [] {
      assert PairTerms(xs, ys) == [];
    } else {
      ComomentTail(xs, ys);
      ComomentCounted(xs[1..], ys[1..]);
      DeviationsExpanded(xs[0], ys[0], Times(xs[0], ys[0]), xs[1..], ys[1..]);
      ComomentStep(xs[0], ys[0], Times(xs[0], ys[0]), Count(xs[1..]), Sum(xs[1..]), Sum(ys[1..]), Dot(xs[1..], ys[1..]),
                   Sum(Deviations(xs[0], ys[0], xs[1..], ys[1..])));
    }
  }

  /** The pair sum is n times the sum of the products less the product of the sums. */
  lemma {:induction false} ComomentExpanded(xs: seq<real>, ys: seq<real>)
    requires |xs| == |ys|
    ensures Comoment(xs, ys) == (|xs| as real) * Dot(xs, ys) - Sum(xs) * Sum(ys)
  {
    ComomentCounted(xs, ys);
    CountLength(xs);
  }

  /** The arithmetic of `ComomentCentered`: `u` and `v` are the sums `a` and `b` divided by `n`. */
  lemma {:induction false} CenteredStep(n: real, a: real, b: real, u: real, v: real, p: real, xy: real, c: real, d: real)
    requires c == Times(n, p) - Times(a, b) && a == Times(n, u) && b == Times(n, v)
    requires xy == Times(u, v) && d == Times(n, xy) - Times(u, b) - Times(v, a) + p
    ensures c == Times(n, d)
  {
  }

  lemma {:induction false} ComomentCentered(xs: seq<real>, ys: seq<real>, n: real, mx: real, my: real)
    requires |xs| == |ys| && n == Count(xs) && Times(n, mx) == Sum(xs) && Times(n, my) == Sum(ys)
    ensures Comoment(xs, ys) == Times(n, Sum(Deviations(mx, my, xs, ys)))
  {
    ComomentCounted(xs, ys);
    DeviationsExpanded(mx, my, Times(mx, my), xs, ys);
    CenteredStep(n, Sum(xs), Sum(ys), mx, my, Dot(xs, ys), Times(mx, my), Comoment(xs, ys), Sum(Deviations(mx, my, xs, ys)));
  }

  lemma MeanScaled(s: seq<real>)
    requires |s| > 0
    ensures Times(|s| as real, Mean(s)) == Sum(s)
  {
  }

  /** The pair sum is n times the sum of the products of the deviations from the means:
      the numerator of the Pearson coefficient, scaled by n. */
  lemma {:induction false} ComomentOfDeviations(xs: seq<real>, ys: seq<real>)
    requires |xs| == |ys| && |xs| > 0
    ensures Comoment(xs, ys) == (|xs| as real) * Sum(Deviations(Mean(xs), Mean(ys), xs, ys))
  {
    CountLength(xs);
    MeanScaled(xs);
    MeanScaled(ys);
    ComomentCentered(xs, ys, |xs| as real, Mean(xs), Mean(ys));
  }

  /** Scaling the numerator and both spreads by the same positive count keeps the sign. */
  lemma SignScaled(n: real, sxy: real, sxx: real, syy: real)
    requires n > 0.0
    ensures SignOfCorrelation(n * sxy, n * sxx, n * syy) == SignOfCorrelation(sxy, sxx, syy)
  {
    assert n * sxx == 0.0 <==> sxx == 0.0;
    assert n * syy == 0.0 <==> syy == 0.0;
    assert n * sxy < 0.0 <==> sxy < 0.0;
    assert n * sxy > 0.0 <==> sxy > 0.0;
  }

  /** `Relation` is the sign of the Pearson coefficient computed from the means: the
      covariance sum over the two spreads. */
  lemma RelationOfMeans(xs: seq<real>, ys: seq<real>)
    requires |xs| == |ys| && |xs| > 0
    ensures Relation(xs, ys) ==
      SignOfCorrelation(Sum(Deviations(Mean(xs), Mean(ys), xs, ys)),
                        Sum(Deviations(Mean(xs), Mean(xs), xs, xs)),
                        Sum(Deviations(Mean(ys), Mean(ys), ys, ys)))
  {
    ComomentOfDeviations(xs, ys);
    ComomentOfDeviations(xs, xs);
    ComomentOfDeviations(ys, ys);
    SignScaled(|xs| as real, Sum(Deviations(Mean(xs), Mean(ys), xs, ys)),
               Sum(Deviations(Mean(xs), Mean(xs), xs, xs)), Sum(Deviations(Mean(ys), Mean(ys), ys, ys)));
  }

  /** Correlation does not depend on which series comes first. */
  lemma RelationSymmetric(xs: seq<real>, ys: seq<real>)
    requires |xs| == |ys|
    ensures Relation(xs, ys) == Relation(ys, xs)
  {
    ComomentSymmetric(xs, ys);
  }

  /** Fewer than two rows never show a relationship (pandas needs two observations). */
  lemma RelationOfFewRows(xs: seq<real>, ys: seq<real>)
    requires |xs| == |ys| && |xs| < 2
    ensures Relation(xs, ys) == NoRelationship
  {
    if |xs| == 1 {
      assert Deviations(xs[0], xs[0], xs[1..], xs[1..]) == [];
      assert PairTerms(xs, xs)[0] == 0.0 && PairTerms(xs, xs)[1..] == [];
    } else {
      assert PairTerms(xs, xs) == [];
    }
  }

  /** `u` is zero or positive exactly when `v` is. */
  predicate SameSign(u: real, v: real)
  {
    u >= 0.0 && v >= 0.0 && (u > 0.0 <==> v > 0.0)
  }

  /** `u` is zero or negative exactly when `v` is zero or positive. */
  predicate OppositeSign(u: real, v: real)
  {
    u <= 0.0 && v >= 0.0 && (u < 0.0 <==> v > 0.0)
  }

  lemma {:induction false} SumSameSign(s: seq<real>, t: seq<real>)
    requires |s| == |t| && forall i :: 0 <= i < |s| ==> SameSign(s[i], t[i])
    ensures SameSign(Sum(s), Sum(t))
  {
    if s != [] {
      SumSameSign(s[1..], t[1..]);
    }
  }

  lemma {:induction false} SumOppositeSign(s: seq<real>, t: seq<real>)
    requires |s| == |t| && forall i :: 0 <= i < |s| ==> OppositeSign(s[i], t[i])
    ensures OppositeSign(Sum(s), Sum(t))
  {
    if s != [] {
      SumOppositeSign(s[1..], t[1..]);
    }
  }

  /** The signs of one pair's terms when `y - w` is `a` times `x - z`. */
  lemma LineTermSigns(a: real, x: real, y: real, z: real, w: real)
    requires y - w == a * (x - z)
    ensures a > 0.0 ==> SameSign((x - z) * (y - w), (x - z) * (x - z))
    ensures a < 0.0 ==> OppositeSign((x - z) * (y - w), (x - z) * (x - z))
    ensures a != 0.0 ==> SameSign((y - w) * (y - w), (x - z) * (x - z))
    ensures a == 0.0 ==> (y - w) * (y - w) == 0.0
  {
    var d := x - z;
    assert (x - z) * (y - w) == a * (d * d);
    assert (y - w) * (y - w) == (a * a) * (d * d);
    assert d * d >= 0.0;
    assert d * d > 0.0 <==> d != 0.0;
    if a != 0.0 {
      assert a * a > 0.0;
    }
  }

  lemma DeviationsOfLinear(x: real, y: real, xs: seq<real>, ys: seq<real>, a: real)
    requires |xs| == |ys|
    requires forall j :: 0 <= j < |xs| ==> y - ys[j] == a * (x - xs[j])
    ensures a > 0.0 ==> forall j :: 0 <= j < |xs| ==> SameSign(Deviations(x, y, xs, ys)[j], Deviations(x, x, xs, xs)[j])
    ensures a < 0.0 ==> forall j :: 0 <= j < |xs| ==> OppositeSign(Deviations(x, y, xs, ys)[j], Deviations(x, x, xs, xs)[j])
    ensures a != 0.0 ==> forall j :: 0 <= j < |xs| ==> SameSign(Deviations(y, y, ys, ys)[j], Deviations(x, x, xs, xs)[j])
    ensures a == 0.0 ==> forall j :: 0 <= j < |xs| ==> Deviations(y, y, ys, ys)[j] == 0.0
  {
    forall j | 0 <= j < |xs|
      ensures a > 0.0 ==> SameSign(Deviations(x, y, xs, ys)[j], Deviations(x, x, xs, xs)[j])
      ensures a < 0.0 ==> OppositeSign(Deviations(x, y, xs, ys)[j], Deviations(x, x, xs, xs)[j])
      ensures a != 0.0 ==> SameSign(Deviations(y, y, ys, ys)[j], Deviations(x, x, xs, xs)[j])
      ensures a == 0.0 ==> Deviations(y, y, ys, ys)[j] == 0.0
    {
      LineTermSigns(a, x, y, xs[j], ys[j]);
    }
  }

  lemma CrossOfLinear(x: real, y: real, xs: seq<real>, ys: seq<real>, a: real)
    requires |xs| == |ys|
    requires forall j :: 0 <= j < |xs| ==> y - ys[j] == a * (x - xs[j])
    ensures a > 0.0 ==> SameSign(Sum(Deviations(x, y, xs, ys)), Sum(Deviations(x, x, xs, xs)))
    ensures a < 0.0 ==> OppositeSign(Sum(Deviations(x, y, xs, ys)), Sum(Deviations(x, x, xs, xs)))
    ensures a != 0.0 ==> SameSign(Sum(Deviations(y, y, ys, ys)), Sum(Deviations(x, x, xs, xs)))
    ensures a == 0.0 ==> Sum(Deviations(y, y, ys, ys)) == 0.0
  {
    DeviationsOfLinear(x, y, xs, ys, a);
    if a > 0.0 {
      SumSameSign(Deviations(x, y, xs, ys), Deviations(x, x, xs, xs));
    } else if a < 0.0 {
      SumOppositeSign(Deviations(x, y, xs, ys), Deviations(x, x, xs, xs));
    } else {
      SumOfZeros(Deviations(y, y, ys, ys));
    }
    if a != 0.0 {
      SumSameSign(Deviations(y, y, ys, ys), Deviations(x, x, xs, xs));
    }
  }

  /** Profit changes by exactly `a` per unit of head count between any two rows. */
  predicate Linear(xs: seq<real>, ys: seq<real>, a: real)
  {
    |xs| == |ys| && forall i, j :: 0 <= i < j < |xs| ==> ys[i] - ys[j] == a * (xs[i] - xs[j])
  }

  lemma PairTermsOfLinear(xs: seq<real>, ys: seq<real>, a: real)
    requires Linear(xs, ys, a)
    ensures a > 0.0 ==> forall i :: 0 <= i < |xs| ==> SameSign(PairTerms(xs, ys)[i], PairTerms(xs, xs)[i])
    ensures a < 0.0 ==> forall i :: 0 <= i < |xs| ==> OppositeSign(PairTerms(xs, ys)[i], PairTerms(xs, xs)[i])
    ensures a != 0.0 ==> forall i :: 0 <= i < |xs| ==> SameSign(PairTerms(ys, ys)[i], PairTerms(xs, xs)[i])
    ensures a == 0.0 ==> forall i :: 0 <= i < |xs| ==> PairTerms(ys, ys)[i] == 0.0
  {
    forall i | 0 <= i < |xs|
      ensures a > 0.0 ==> SameSign(PairTerms(xs, ys)[i], PairTerms(xs, xs)[i])
      ensures a < 0.0 ==> OppositeSign(PairTerms(xs, ys)[i], PairTerms(xs, xs)[i])
      ensures a != 0.0 ==> SameSign(PairTerms(ys, ys)[i], PairTerms(xs, xs)[i])
      ensures a == 0.0 ==> PairTerms(ys, ys)[i] == 0.0
    {
      var us, vs := xs[i + 1..], ys[i + 1..];
      forall j | 0 <= j < |us| ensures ys[i] - vs[j] == a * (xs[i] - us[j]) {
        assert vs[j] == ys[i + 1 + j] && us[j] == xs[i + 1 + j];
      }
      CrossOfLinear(xs[i], ys[i], us, vs, a);
    }
  }

  /** A linear relation's comoment with head count has the sign of its slope, and its
      squared spread is positive exactly when head count varies and the slope is not zero. */
  lemma ComomentOfLinear(xs: seq<real>, ys: seq<real>, a: real)
    requires Linear(xs, ys, a)
    ensures a > 0.0 ==> SameSign(Comoment(xs, ys), Comoment(xs, xs))
    ensures a < 0.0 ==> OppositeSign(Comoment(xs, ys), Comoment(xs, xs))
    ensures a != 0.0 ==> SameSign(Comoment(ys, ys), Comoment(xs, xs))
    ensures a == 0.0 ==> Comoment(ys, ys) == 0.0
  {
    PairTermsOfLinear(xs, ys, a);
    if a > 0.0 {
      SumSameSign(PairTerms(xs, ys), PairTerms(xs, xs));
    } else if a < 0.0 {
      SumOppositeSign(PairTerms(xs, ys), PairTerms(xs, xs));
    } else {
      SumOfZeros(PairTerms(ys, ys));
    }
    if a != 0.0 {
      SumSameSign(PairTerms(ys, ys), PairTerms(xs, xs));
    }
  }

  /** The squared spread of a series is never negative. */
  lemma SpreadNonNegative(xs: seq<real>)
    ensures Comoment(xs, xs) >= 0.0
  {
    assert Linear(xs, xs, 1.0);
    ComomentOfLinear(xs, xs, 1.0);
  }

  /** When profit changes by exactly `a` per head between any two rows and head count
      varies, the relationship is positive for `a > 0`, negative for `a < 0` and absent
      for flat profit. */
  lemma RelationOfLinear(xs: seq<real>, ys: seq<real>, a: real)
    requires Linear(xs, ys, a) && Comoment(xs, xs) != 0.0
    ensures Relation(xs, ys) == if a > 0.0 then Positive else if a < 0.0 then Negative else NoRelationship
  {
    SpreadNonNegative(xs);
    ComomentOfLinear(xs, ys, a);
  }

  /** Profit that is an exact linear function of head count. */
  function Line(xs: seq<real>, a: real, b: real): (r: seq<real>)
    ensures |r| == |xs|
  {
    seq(|xs|, i requires 0 <= i < |xs| => a * xs[i] + b)
  }

  lemma LineIsLinear(xs: seq<real>, a: real, b: real)
    ensures Linear(xs, Line(xs, a, b), a)
  {
    forall i, j | 0 <= i < j < |xs| ensures Line(xs, a, b)[i] - Line(xs, a, b)[j] == a * (xs[i] - xs[j]) {
      assert Line(xs, a, b)[i] - Line(xs, a, b)[j] == (a * xs[i] + b) - (a * xs[j] + b);
    }
  }

  /** The same for profit `a * employees + b`. */
  lemma RelationOfLine(xs: seq<real>, a: real, b: real)
    requires Comoment(xs, xs) != 0.0
    ensures Relation(xs, Line(xs, a, b)) == if a > 0.0 then Positive else if a < 0.0 then Negative else NoRelationship
  {
    LineIsLinear(xs, a, b);
    RelationOfLinear(xs, Line(xs, a, b), a);
  }

  // ---------------------------------------------------------------------------
  // The generator.

  /** The dictionary the generator returns, built from its parts. */
  function InsightMap(top: Insight, loss: Insight, high: nat, cac: Float, margin: Float,
                      region: Insight, product: Insight, employee: Insight): (m: map<string, Insight>)
    ensures forall k :: k in AlwaysKeys ==> k in m
    ensures forall k :: k in m ==> k in AlwaysKeys || k == CostWarningKey
    ensures CostWarningKey in m <==> high > 0
    ensures CostWarningKey in m ==> m[CostWarningKey] == CostWarning(high)
  {
    var m := map[TopMonthKey := top, LossMonthKey := loss];
    var m := if high > 0 then m[CostWarningKey := CostWarning(high)] else m;
    m[AvgCacKey := AverageCac(cac)][AvgMarginKey := AverageMargin(margin)]
     [BestRegionKey := region][BestProductKey := product][EmployeeProfitKey := employee]
  }

  /** `u` has the rows of `t`, every column of `t` in the same place, and the same cells
      in every column of `t` not named in `written`. */
  predicate Keeps(t: Table, u: Table, written: seq<string>)
    requires WellFormed(t) && WellFormed(u)
  {
    && |u.rows| == |t.rows|
    && |t.columns| <= |u.columns| && u.columns[..|t.columns|] == t.columns
    && forall c :: c in t.columns && c !in written ==> c in u.columns && Column(u, c) == Column(t, c)
  }

  lemma KeepsSelf(t: Table, written: seq<string>)
    requires WellFormed(t)
    ensures Keeps(t, t, written)
  {
    assert t.columns[..|t.columns|] == t.columns;
  }

  lemma SetColumnKeeps(t: Table, name: string, values: seq<Cell>)
    requires WellFormed(t) && |values| == |t.rows|
    ensures Keeps(t, SetColumn(t, name, values), [name])
  {
    var u := SetColumn(t, name, values);
    if name !in t.columns {
      assert (t.columns + [name])[..|t.columns|] == t.columns;
    } else {
      assert u.columns[..|t.columns|] == t.columns;
    }
  }

  lemma KeepsThen(t: Table, u: Table, v: Table, w1: seq<string>, w2: seq<string>, w: seq<string>)
    requires WellFormed(t) && WellFormed(u) && WellFormed(v)
    requires Keeps(t, u, w1) && Keeps(u, v, w2)
    requires forall c :: c in w1 || c in w2 ==> c in w
    ensures Keeps(t, v, w)
  {
    assert v.columns[..|t.columns|] == v.columns[..|u.columns|][..|t.columns|];
    forall c | c in t.columns
      ensures c in u.columns
    {
      var k :| 0 <= k < |t.columns| && t.columns[k] == c;
      assert u.columns[k] == c;
    }
  }

  /** `u` holds the dates of `t` parsed cell by cell in its date column, and the month
      of each in its month column. */
  predicate DatesStored(t: Table, u: Table, parse: DateParser)
    requires WellFormed(t) && WellFormed(u) && |u.rows| == |t.rows|
  {
    && "date" in t.columns && "date" in u.columns && "month" in u.columns
    && (forall i :: 0 <= i < |t.rows| ==> Some(Column(u, "date")[i]) == ToDatetime(parse, Column(t, "date")[i]))
    && Column(u, "month") == Months(Column(u, "date"))
  }

  /** A table that keeps the date and month columns keeps what they hold. */
  lemma KeepsDates(t: Table, t1: Table, u: Table, parse: DateParser, written: seq<string>)
    requires WellFormed(t) && WellFormed(t1) && WellFormed(u) && |t1.rows| == |t.rows|
    requires DatesStored(t, t1, parse) && Keeps(t1, u, written)
    requires "date" !in written && "month" !in written
    ensures DatesStored(t, u, parse)
  {
    assert Column(u, "date") == Column(t1, "date");
    assert Column(u, "month") == Column(t1, "month");
  }

  /** Lines 8-9: the date column is parsed and a month column derived from it. */
  function DatePhase(t: Table, parse: DateParser): (r: Result<(Table, seq<Cell>), InsightError>)
    requires WellFormed(t)
    ensures r.Success? ==> WellFormed(r.value.0) && |r.value.0.rows| == |t.rows| && |r.value.1| == |t.rows|
    ensures r.Success? ==> forall i :: 0 <= i < |r.value.1| ==> r.value.1[i].Period? || r.value.1[i].Missing?
    ensures r.Success? ==> Keeps(t, r.value.0, ["date", "month"])
    ensures r.Success? ==> DatesStored(t, r.value.0, parse) && Column(r.value.0, "month") == r.value.1
  {
    var cells :- Lookup(t, "date");
    var dates :- ToDatetimeColumn(cells, parse);
    var months := Months(dates);
    var t1 := SetColumn(t, "date", dates);
    SetColumnKeeps(t, "date", dates);
    SetColumnKeeps(t1, "month", months);
    KeepsThen(t, t1, SetColumn(t1, "month", months), ["date"], ["month"], ["date", "month"]);
    Success((SetColumn(t1, "month", months), months))
  }

  /** Lines 12-16: the revenue column and the top and lowest months. */
  function MonthPhase(t: Table, months: seq<Cell>): (r: Result<(seq<real>, Insight, Insight), InsightError>)
    requires WellFormed(t) && |months| == |t.rows|
    requires forall i :: 0 <= i < |months| ==> months[i].Period? || months[i].Missing?
    ensures r.Success? ==> |r.value.0| == |t.rows|
  {
    var revenue :- Numeric(t, "revenue");
    var extremes :- MonthlyRevenue(months, revenue);
    Success((revenue, extremes.0, extremes.1))
  }

  /** The table holds a cost-to-revenue column of floats. */
  predicate CostsStored(u: Table)
  {
    && WellFormed(u) && "cost_to_revenue_ratio" in u.columns
    && forall i :: 0 <= i < |u.rows| ==> IsNumeric(Column(u, "cost_to_revenue_ratio")[i])
  }

  /** The number of stored ratios above 0.8. */
  function StoredHighCount(u: Table): nat
    requires CostsStored(u)
  {
    HighCostCount(FloatsOf(Column(u, "cost_to_revenue_ratio")))
  }

  /** A table that keeps the stored ratios keeps their count. */
  lemma KeepsCosts(t: Table, u: Table, written: seq<string>)
    requires CostsStored(t) && WellFormed(u) && Keeps(t, u, written)
    requires "cost_to_revenue_ratio" !in written
    ensures CostsStored(u) && StoredHighCount(u) == StoredHighCount(t)
  {
    assert Column(u, "cost_to_revenue_ratio") == Column(t, "cost_to_revenue_ratio");
  }

  /** Lines 19-20: the total cost and cost-to-revenue columns written into the table. */
  function CostColumns(t: Table, total: seq<real>, ratios: seq<Float>): (u: Table)
    requires WellFormed(t) && |total| == |ratios| == |t.rows|
    ensures WellFormed(u) && |u.rows| == |t.rows|
  {
    SetColumn(SetColumn(t, "total_cost", Nums(total)), "cost_to_revenue_ratio", CellsOf(ratios))
  }

  lemma CostColumnsKeep(t: Table, total: seq<real>, ratios: seq<Float>)
    requires WellFormed(t) && |total| == |ratios| == |t.rows|
    ensures Keeps(t, CostColumns(t, total, ratios), ["total_cost", "cost_to_revenue_ratio"])
    ensures "total_cost" in CostColumns(t, total, ratios).columns
    ensures "cost_to_revenue_ratio" in CostColumns(t, total, ratios).columns
    ensures Column(CostColumns(t, total, ratios), "cost_to_revenue_ratio") == CellsOf(ratios)
    ensures CostsStored(CostColumns(t, total, ratios))
    ensures StoredHighCount(CostColumns(t, total, ratios)) == HighCostCount(ratios)
  {
    var t0 := SetColumn(t, "total_cost", Nums(total));
    SetColumnKeeps(t, "total_cost", Nums(total));
    SetColumnKeeps(t0, "cost_to_revenue_ratio", CellsOf(ratios));
    KeepsThen(t, t0, CostColumns(t, total, ratios), ["total_cost"], ["cost_to_revenue_ratio"], ["total_cost", "cost_to_revenue_ratio"]);
    assert FloatsOf(CellsOf(ratios)) == ratios;
  }

  /** Lines 19-20 read the operating expense, marketing cost and cost-of-goods columns
      in that order, raising at the first that is missing or not numeric. */
  function CostInputs(t: Table): (r: Result<(seq<real>, seq<real>, seq<real>), InsightError>)
    requires WellFormed(t)
    ensures r.Success? ==> |r.value.0| == |t.rows| && |r.value.1| == |t.rows| && |r.value.2| == |t.rows|
  {
    var opexCells :- Lookup(t, "operating_expense");
    var marketingCells :- Lookup(t, "marketing_cost");
    var opex :- AsReals("operating_expense", opexCells);
    var marketing :- AsReals("marketing_cost", marketingCells);
    var cogs :- Numeric(t, "cogs");
    Success((opex, marketing, cogs))
  }

  /** Lines 19-23: total cost and its ratio to revenue are stored; the flagged rows are
      counted. Also returns the marketing and cost-of-goods columns read on the way. */
  function CostPhase(t: Table, revenue: seq<real>): (r: Result<(Table, nat, seq<real>, seq<real>), InsightError>)
    requires WellFormed(t) && |revenue| == |t.rows|
    ensures r.Success? ==> WellFormed(r.value.0) && |r.value.0.rows| == |t.rows|
    ensures r.Success? ==> |r.value.2| == |t.rows| && |r.value.3| == |t.rows|
    ensures r.Success? ==> Keeps(t, r.value.0, ["total_cost", "cost_to_revenue_ratio"])
    ensures r.Success? ==> "total_cost" in r.value.0.columns && "cost_to_revenue_ratio" in r.value.0.columns
    ensures r.Success? ==> CostsStored(r.value.0) && r.value.1 == StoredHighCount(r.value.0)
  {
    var inputs :- CostInputs(t);
    var total := TotalCost(inputs.0, inputs.1, inputs.2);
    var ratios := CostRatios(total, revenue);
    CostColumnsKeep(t, total, ratios);
    Success((CostColumns(t, total, ratios), HighCostCount(ratios), inputs.1, inputs.2))
  }

  /** Lines 26-33: acquisition cost and margin columns are stored and averaged. */
  function CacPhase(t: Table, revenue: seq<real>, marketing: seq<real>, cogs: seq<real>): (r: Result<(Table, Float, Float), InsightError>)
    requires WellFormed(t) && |revenue| == |marketing| == |cogs| == |t.rows|
    ensures r.Success? ==> WellFormed(r.value.0) && |r.value.0.rows| == |t.rows|
    ensures r.Success? ==> Keeps(t, r.value.0, ["customer_acquisition_cost", "profit_margin"])
    ensures r.Success? ==> "customer_acquisition_cost" in r.value.0.columns && "profit_margin" in r.value.0.columns
  {
    var customers :- Numeric(t, "new_customers_acquired");
    var cac := Acquisition(marketing, customers);
    var margins := Margins(revenue, cogs);
    var t0 := SetColumn(t, "customer_acquisition_cost", CellsOf(cac));
    var t1 := SetColumn(t0, "profit_margin", CellsOf(margins));
    SetColumnKeeps(t, "customer_acquisition_cost", CellsOf(cac));
    SetColumnKeeps(t0, "profit_margin", CellsOf(margins));
    KeepsThen(t, t0, t1, ["customer_acquisition_cost"], ["profit_margin"], ["customer_acquisition_cost", "profit_margin"]);
    Success((t1, NanMean(cac), NanMean(margins)))
  }

  /** Lines 36-52 from the results of their reads, raising at the first that fails.
      Weighted by `revenue`, over `n` rows. */
  function GroupsFrom(regions: Result<seq<Cell>, InsightError>, products: Result<seq<Cell>, InsightError>,
                      units: Result<seq<real>, InsightError>, employees: Result<seq<real>, InsightError>,
                      profit: Result<seq<real>, InsightError>, revenue: seq<real>, n: nat)
    : Result<(Insight, Insight, Insight), InsightError>
    requires regions.Success? ==> |regions.value| == n
    requires products.Success? ==> |products.value| == n
    requires units.Success? ==> |units.value| == n
    requires employees.Success? ==> |employees.value| == n
    requires profit.Success? ==> |profit.value| == n
    requires |revenue| == n
  {
    var regions :- regions;
    var region :- TopGroup("region", regions, revenue);
    var products :- products;
    var units :- units;
    var product :- TopGroup("product_name", products, units);
    var employees :- employees;
    var profit :- profit;
    Success((BestRegion(region.0, region.1), BestProduct(product.0, product.1), EmployeeProfit(Relation(employees, profit))))
  }

  /** Lines 36-52: best region, best product and the head-count relationship. */
  function GroupPhase(t: Table, revenue: seq<real>): (r: Result<(Insight, Insight, Insight), InsightError>)
    requires WellFormed(t) && |revenue| == |t.rows|
  {
    GroupsFrom(Lookup(t, "region"), Lookup(t, "product_name"), Numeric(t, "units_sold"),
               Numeric(t, "employee_count"), Numeric(t, "net_profit"), revenue, |t.rows|)
  }

  /** What a run leaves behind: the caller's table as the generator left it (its columns
      are written even when a later step raises) and the insights or the error. */
  datatype Outcome = Outcome(table: Table, insights: Result<map<string, Insight>, InsightError>)

  /** A dictionary as the generator completes it: the seven fixed keys, and the cost
      warning exactly when `high` rows are flagged, counting them. */
  predicate Complete(m: map<string, Insight>, high: nat)
  {
    && (forall k :: k in AlwaysKeys ==> k in m)
    && (forall k :: k in m ==> k in AlwaysKeys || k == CostWarningKey)
    && (CostWarningKey in m <==> high > 0)
    && (CostWarningKey in m ==> m[CostWarningKey] == CostWarning(high))
  }

  /** Lines 36-54, after the averages: the dictionary is complete. */
  function AfterAverages(t3: Table, revenue: seq<real>, top: Insight, loss: Insight, high: nat, cac: Float, margin: Float): (o: Outcome)
    requires WellFormed(t3) && |revenue| == |t3.rows|
    ensures o.table == t3
  {
    match GroupPhase(t3, revenue)
    case Failure(e) => Outcome(t3, Failure(e))
    case Success((region, product, employee)) =>
      Outcome(t3, Success(InsightMap(top, loss, high, cac, margin, region, product, employee)))
  }

  /** Lines 26-54, after the cost columns. */
  function AfterCosts(t2: Table, revenue: seq<real>, top: Insight, loss: Insight, high: nat,
                      marketing: seq<real>, cogs: seq<real>): (o: Outcome)
    requires WellFormed(t2) && |revenue| == |marketing| == |cogs| == |t2.rows|
    ensures WellFormed(o.table) && |o.table.rows| == |t2.rows|
  {
    match CacPhase(t2, revenue, marketing, cogs)
    case Failure(e) => Outcome(t2, Failure(e))
    case Success((t3, cac, margin)) => AfterAverages(t3, revenue, top, loss, high, cac, margin)
  }

  /** Lines 19-54, after the monthly extremes. */
  function AfterMonths(t1: Table, revenue: seq<real>, top: Insight, loss: Insight): (o: Outcome)
    requires WellFormed(t1) && |revenue| == |t1.rows|
    ensures WellFormed(o.table) && |o.table.rows| == |t1.rows|
  {
    match CostPhase(t1, revenue)
    case Failure(e) => Outcome(t1, Failure(e))
    case Success((t2, high, marketing, cogs)) => AfterCosts(t2, revenue, top, loss, high, marketing, cogs)
  }

  /** Lines 12-54, after the date and month columns. */
  function AfterDates(t1: Table, months: seq<Cell>): (o: Outcome)
    requires WellFormed(t1) && |months| == |t1.rows|
    requires forall i :: 0 <= i < |months| ==> months[i].Period? || months[i].Missing?
    ensures WellFormed(o.table) && |o.table.rows| == |t1.rows|
  {
    match MonthPhase(t1, months)
    case Failure(e) => Outcome(t1, Failure(e))
    case Success((revenue, top, loss)) => AfterMonths(t1, revenue, top, loss)
  }

  /** The whole generator on a table value. */
  function Run(t: Table, parse: DateParser): (o: Outcome)
    requires WellFormed(t)
    ensures WellFormed(o.table) && |o.table.rows| == |t.rows|
  {
    match DatePhase(t, parse)
    case Failure(e) => Outcome(t, Failure(e))
    case Success((t1, months)) => AfterDates(t1, months)
  }

  lemma AfterAveragesFacts(t3: Table, revenue: seq<real>, top: Insight, loss: Insight, high: nat, cac: Float, margin: Float)
    requires WellFormed(t3) && |revenue| == |t3.rows|
    ensures var o := AfterAverages(t3, revenue, top, loss, high, cac, margin);
      o.insights.Success? ==> Complete(o.insights.value, high)
  {
    match GroupPhase(t3, revenue)
    case Failure(e) =>
    case Success((region, product, employee)) =>
      var m := InsightMap(top, loss, high, cac, margin, region, product, employee);
      assert Complete(m, high);
  }

  lemma AfterCostsFacts(t2: Table, revenue: seq<real>, top: Insight, loss: Insight, high: nat,
                        marketing: seq<real>, cogs: seq<real>)
    requires WellFormed(t2) && |revenue| == |marketing| == |cogs| == |t2.rows|
    ensures var o := AfterCosts(t2, revenue, top, loss, high, marketing, cogs);
      && Keeps(t2, o.table, ["customer_acquisition_cost", "profit_margin"])
      && (o.insights.Success? ==> "customer_acquisition_cost" in o.table.columns && "profit_margin" in o.table.columns)
      && (o.insights.Success? ==> Complete(o.insights.value, high))
  {
    match CacPhase(t2, revenue, marketing, cogs)
    case Failure(e) => KeepsSelf(t2, []);
    case Success((t3, cac, margin)) => AfterAveragesFacts(t3, revenue, top, loss, high, cac, margin);
  }

  /** A completed dictionary over a table that keeps the stored ratios is complete over
      the new table too. */
  lemma ReportKept(t: Table, o: Outcome, written: seq<string>)
    requires CostsStored(t) && WellFormed(o.table) && Keeps(t, o.table, written)
    requires "cost_to_revenue_ratio" !in written
    requires o.insights.Success? ==> Complete(o.insights.value, StoredHighCount(t))
    ensures o.insights.Success? ==> CostsStored(o.table) && Complete(o.insights.value, StoredHighCount(o.table))
  {
    KeepsCosts(t, o.table, written);
  }

  lemma AfterCostsReport(t2: Table, revenue: seq<real>, top: Insight, loss: Insight, high: nat,
                         marketing: seq<real>, cogs: seq<real>)
    requires WellFormed(t2) && |revenue| == |marketing| == |cogs| == |t2.rows|
    requires CostsStored(t2) && high == StoredHighCount(t2)
    ensures var o := AfterCosts(t2, revenue, top, loss, high, marketing, cogs);
      o.insights.Success? ==> CostsStored(o.table) && Complete(o.insights.value, StoredHighCount(o.table))
  {
    AfterCostsFacts(t2, revenue, top, loss, high, marketing, cogs);
    ReportKept(t2, AfterCosts(t2, revenue, top, loss, high, marketing, cogs), ["customer_acquisition_cost", "profit_margin"]);
  }

  lemma AfterMonthsKeeps(t1: Table, revenue: seq<real>, top: Insight, loss: Insight)
    requires WellFormed(t1) && |revenue| == |t1.rows|
    ensures var o := AfterMonths(t1, revenue, top, loss);
      && Keeps(t1, o.table, AddedColumns[2..])
      && (o.insights.Success? ==> forall c :: c in AddedColumns[2..] ==> c in o.table.columns)
  {
    match CostPhase(t1, revenue)
    case Failure(e) => KeepsSelf(t1, []);
    case Success((t2, high, marketing, cogs)) =>
      AfterCostsFacts(t2, revenue, top, loss, high, marketing, cogs);
      CostsThenKeeps(t1, t2, AfterCosts(t2, revenue, top, loss, high, marketing, cogs));
  }

  lemma CostsThenKeeps(t1: Table, t2: Table, o: Outcome)
    requires WellFormed(t1) && WellFormed(t2) && WellFormed(o.table)
    requires Keeps(t1, t2, ["total_cost", "cost_to_revenue_ratio"])
    requires "total_cost" in t2.columns && "cost_to_revenue_ratio" in t2.columns
    requires Keeps(t2, o.table, ["customer_acquisition_cost", "profit_margin"])
    requires o.insights.Success? ==> "customer_acquisition_cost" in o.table.columns && "profit_margin" in o.table.columns
    ensures Keeps(t1, o.table, AddedColumns[2..])
    ensures o.insights.Success? ==> forall c :: c in AddedColumns[2..] ==> c in o.table.columns
  {
    KeepsThen(t1, t2, o.table, ["total_cost", "cost_to_revenue_ratio"], ["customer_acquisition_cost", "profit_margin"], AddedColumns[2..]);
  }

  lemma AfterMonthsReport(t1: Table, revenue: seq<real>, top: Insight, loss: Insight)
    requires WellFormed(t1) && |revenue| == |t1.rows|
    ensures var o := AfterMonths(t1, revenue, top, loss);
      o.insights.Success? ==> CostsStored(o.table) && Complete(o.insights.value, StoredHighCount(o.table))
  {
    match CostPhase(t1, revenue)
    case Failure(e) =>
    case Success((t2, high, marketing, cogs)) =>
      AfterCostsReport(t2, revenue, top, loss, high, marketing, cogs);
  }

  lemma AfterDatesKeeps(t1: Table, months: seq<Cell>)
    requires WellFormed(t1) && |months| == |t1.rows|
    requires forall i :: 0 <= i < |months| ==> months[i].Period? || months[i].Missing?
    ensures var o := AfterDates(t1, months);
      && Keeps(t1, o.table, AddedColumns[2..])
      && (o.insights.Success? ==> forall c :: c in AddedColumns[2..] ==> c in o.table.columns)
  {
    match MonthPhase(t1, months)
    case Failure(e) => KeepsSelf(t1, []);
    case Success((revenue, top, loss)) => AfterMonthsKeeps(t1, revenue, top, loss);
  }

  lemma AfterDatesReport(t1: Table, months: seq<Cell>)
    requires WellFormed(t1) && |months| == |t1.rows|
    requires forall i :: 0 <= i < |months| ==> months[i].Period? || months[i].Missing?
    ensures var o := AfterDates(t1, months);
      o.insights.Success? ==> CostsStored(o.table) && Complete(o.insights.value, StoredHighCount(o.table))
  {
    match MonthPhase(t1, months)
    case Failure(e) =>
    case Success((revenue, top, loss)) => AfterMonthsReport(t1, revenue, top, loss);
  }

  lemma AfterDatesKeepDates(t: Table, t1: Table, months: seq<Cell>, parse: DateParser)
    requires WellFormed(t) && WellFormed(t1) && |months| == |t1.rows| == |t.rows|
    requires forall i :: 0 <= i < |months| ==> months[i].Period? || months[i].Missing?
    requires DatesStored(t, t1, parse)
    ensures DatesStored(t, AfterDates(t1, months).table, parse)
  {
    AfterDatesKeeps(t1, months);
    KeepsDates(t, t1, AfterDates(t1, months).table, parse, AddedColumns[2..]);
  }

  /** Whatever happens, the generator leaves every other column of the caller's table in
      its place with its cells. */
  lemma RunKeepsColumns(t: Table, parse: DateParser)
    requires WellFormed(t)
    ensures Keeps(t, Run(t, parse).table, AddedColumns)
  {
    match DatePhase(t, parse)
    case Failure(e) => KeepsSelf(t, AddedColumns);
    case Success((t1, months)) =>
      AfterDatesKeeps(t1, months);
      KeepsThen(t, t1, AfterDates(t1, months).table, ["date", "month"], AddedColumns[2..], AddedColumns);
  }

  /** After a successful run the caller's table holds every working column. */
  lemma RunAddsColumns(t: Table, parse: DateParser)
    requires WellFormed(t)
    ensures var o := Run(t, parse);
      o.insights.Success? ==> forall c :: c in AddedColumns ==> c in o.table.columns
  {
    match DatePhase(t, parse)
    case Failure(e) =>
    case Success((t1, months)) => AfterDatesKeeps(t1, months);
  }

  /** After a successful run the date column holds the caller's dates parsed cell by
      cell, and the month column the month of each. */
  lemma RunParsesDates(t: Table, parse: DateParser)
    requires WellFormed(t)
    ensures var o := Run(t, parse);
      o.insights.Success? ==> DatesStored(t, o.table, parse)
  {
    match DatePhase(t, parse)
    case Failure(e) =>
    case Success((t1, months)) =>
      AfterDatesKeepDates(t, t1, months, parse);
  }

  /** A successful run reports the seven fixed keys and warns about costs exactly when
      stored cost-to-revenue ratios exceed 0.8, with their count. */
  lemma RunKeys(t: Table, parse: DateParser)
    requires WellFormed(t)
    ensures var o := Run(t, parse);
      o.insights.Success? ==> CostsStored(o.table) && Complete(o.insights.value, StoredHighCount(o.table))
  {
    match DatePhase(t, parse)
    case Failure(e) =>
    case Success((t1, months)) => AfterDatesReport(t1, months);
  }

  /** The cost warning of a dictionary completed over a table, restated over the stored
      ratio column: it is present exactly when some stored ratio exceeds 0.8. With
      `RunKeys` this describes the warning of every successful run. */
  lemma WarningIffHighRatio(u: Table, m: map<string, Insight>)
    requires CostsStored(u) && Complete(m, StoredHighCount(u))
    ensures CostWarningKey in m <==>
              exists i :: 0 <= i < |u.rows| && HighCost(FloatOf(Column(u, "cost_to_revenue_ratio")[i]).value)
  {
    var cells := Column(u, "cost_to_revenue_ratio");
    var ratios := FloatsOf(cells);
    HighCostCountPositive(ratios);
    assert forall i :: 0 <= i < |ratios| ==> FloatOf(cells[i]).value == ratios[i];
  }

  // ---------------------------------------------------------------------------
  // The dictionary read off the caller's columns.

  /** Each key of the dictionary holds its part. */
  lemma InsightMapValues(top: Insight, loss: Insight, high: nat, cac: Float, margin: Float,
                         region: Insight, product: Insight, employee: Insight)
    ensures var m := InsightMap(top, loss, high, cac, margin, region, product, employee);
      && m[TopMonthKey] == top && m[LossMonthKey] == loss
      && m[AvgCacKey] == AverageCac(cac) && m[AvgMarginKey] == AverageMargin(margin)
      && m[BestRegionKey] == region && m[BestProductKey] == product && m[EmployeeProfitKey] == employee
  {
  }

  /** Column `c` has the same presence and cells in `t` and `u`. */
  predicate SameColumn(t: Table, u: Table, c: string)
    requires WellFormed(t) && WellFormed(u)
  {
    && (c in t.columns <==> c in u.columns)
    && (c in t.columns ==> Column(u, c) == Column(t, c))
  }

  /** The columns the generator reads. */
  const ReadColumns: seq<string> :=
    ["revenue", "operating_expense", "marketing_cost", "cogs", "new_customers_acquired",
     "region", "product_name", "units_sold", "employee_count", "net_profit"]

  /** `u` agrees with `t` on every column named in `cs`. */
  predicate SameOn(t: Table, u: Table, cs: seq<string>)
    requires WellFormed(t) && WellFormed(u)
  {
    cs == [] || (SameColumn(t, u, cs[0]) && SameOn(t, u, cs[1..]))
  }

  /** `u` agrees with `t` on its rows' count and every column the generator reads. */
  predicate SameReads(t: Table, u: Table)
    requires WellFormed(t) && WellFormed(u)
  {
    |u.rows| == |t.rows| && SameOn(t, u, ReadColumns)
  }

  lemma {:induction false} SameOnSelf(t: Table, cs: seq<string>)
    requires WellFormed(t)
    ensures SameOn(t, t, cs)
  {
    if cs != [] {
      SameOnSelf(t, cs[1..]);
    }
  }

  lemma {:induction false} SameOnLookup(t: Table, u: Table, cs: seq<string>, c: string)
    requires WellFormed(t) && WellFormed(u) && SameOn(t, u, cs) && c in cs
    ensures Lookup(u, c) == Lookup(t, c) && Numeric(u, c) == Numeric(t, c)
  {
    if cs[0] != c {
      SameOnLookup(t, u, cs[1..], c);
    }
  }

  lemma {:induction false} SameOnSet(t: Table, u: Table, cs: seq<string>, name: string, values: seq<Cell>)
    requires WellFormed(t) && WellFormed(u) && SameOn(t, u, cs) && |values| == |u.rows|
    requires name !in cs
    ensures SameOn(t, SetColumn(u, name, values), cs)
  {
    if cs != [] {
      SameOnSet(t, u, cs[1..], name, values);
    }
  }

  lemma LookupSame(t: Table, u: Table, c: string)
    requires WellFormed(t) && WellFormed(u) && SameReads(t, u) && c in ReadColumns
    ensures Lookup(u, c) == Lookup(t, c) && Numeric(u, c) == Numeric(t, c)
  {
    SameOnLookup(t, u, ReadColumns, c);
  }

  lemma SameReadsSelf(t: Table)
    requires WellFormed(t)
    ensures SameReads(t, t)
  {
    SameOnSelf(t, ReadColumns);
  }

  /** Writing a working column keeps every column the generator reads. */
  lemma SameReadsSet(t: Table, u: Table, name: string, values: seq<Cell>)
    requires WellFormed(t) && WellFormed(u) && SameReads(t, u) && |values| == |u.rows|
    requires name in AddedColumns
    ensures SameReads(t, SetColumn(u, name, values))
  {
    SameOnSet(t, u, ReadColumns, name, values);
  }

  lemma GroupPhaseSame(t: Table, u: Table, revenue: seq<real>)
    requires WellFormed(t) && WellFormed(u) && SameReads(t, u) && |revenue| == |t.rows|
    ensures GroupPhase(u, revenue) == GroupPhase(t, revenue)
  {
    LookupSame(t, u, "region");
    LookupSame(t, u, "product_name");
    LookupSame(t, u, "units_sold");
    LookupSame(t, u, "employee_count");
    LookupSame(t, u, "net_profit");
  }


  /** What lines 36-52 read succeeds. */
  predicate GroupsRead(t: Table, revenue: seq<real>)
    requires WellFormed(t) && |revenue| == |t.rows|
  {
    && "region" in t.columns && "product_name" in t.columns
    && Numeric(t, "units_sold").Success? && Numeric(t, "employee_count").Success? && Numeric(t, "net_profit").Success?
    && TopGroup("region", Column(t, "region"), revenue).Success?
    && TopGroup("product_name", Column(t, "product_name"), Numeric(t, "units_sold").value).Success?
  }

  lemma GroupPhaseValue(t: Table, revenue: seq<real>)
    requires WellFormed(t) && |revenue| == |t.rows| && GroupPhase(t, revenue).Success?
    ensures GroupsRead(t, revenue)
    ensures var region := TopGroup("region", Column(t, "region"), revenue).value;
      var product := TopGroup("product_name", Column(t, "product_name"), Numeric(t, "units_sold").value).value;
      GroupPhase(t, revenue).value ==
        (BestRegion(region.0, region.1), BestProduct(product.0, product.1),
         EmployeeProfit(Relation(Numeric(t, "employee_count").value, Numeric(t, "net_profit").value)))
  {
  }

  /** Lines 36-54 on the caller's columns. */
  function GroupsOf(t: Table, revenue: seq<real>, top: Insight, loss: Insight, high: nat, cac: Float, margin: Float)
    : Result<map<string, Insight>, InsightError>
    requires WellFormed(t) && |revenue| == |t.rows|
  {
    var groups :- GroupPhase(t, revenue);
    Success(InsightMap(top, loss, high, cac, margin, groups.0, groups.1, groups.2))
  }

  /** Lines 26-54 on the caller's columns. */
  function AveragesOf(t: Table, revenue: seq<real>, top: Insight, loss: Insight, high: nat,
                      marketing: seq<real>, cogs: seq<real>): Result<map<string, Insight>, InsightError>
    requires WellFormed(t) && |revenue| == |marketing| == |cogs| == |t.rows|
  {
    var customers :- Numeric(t, "new_customers_acquired");
    GroupsOf(t, revenue, top, loss, high, NanMean(Acquisition(marketing, customers)), NanMean(Margins(revenue, cogs)))
  }

  /** Lines 19-54 on the caller's columns. */
  function CostsOf(t: Table, revenue: seq<real>, top: Insight, loss: Insight): Result<map<string, Insight>, InsightError>
    requires WellFormed(t) && |revenue| == |t.rows|
  {
    var inputs :- CostInputs(t);
    AveragesOf(t, revenue, top, loss, HighCostCount(CostRatios(TotalCost(inputs.0, inputs.1, inputs.2), revenue)), inputs.1, inputs.2)
  }

  /** The dictionary computed from the caller's own columns, in the order the source
      reads them, without the working columns: the reference for `Run`. */
  function Insights(t: Table, parse: DateParser): Result<map<string, Insight>, InsightError>
    requires WellFormed(t)
  {
    var cells :- Lookup(t, "date");
    var dates :- ToDatetimeColumn(cells, parse);
    var revenue :- Numeric(t, "revenue");
    var extremes :- MonthlyRevenue(Months(dates), revenue);
    CostsOf(t, revenue, extremes.0, extremes.1)
  }

  lemma AfterAveragesInsights(t: Table, t3: Table, revenue: seq<real>, top: Insight, loss: Insight, high: nat,
                              cac: Float, margin: Float)
    requires WellFormed(t) && WellFormed(t3) && SameReads(t, t3) && |revenue| == |t3.rows|
    ensures AfterAverages(t3, revenue, top, loss, high, cac, margin).insights == GroupsOf(t, revenue, top, loss, high, cac, margin)
  {
    GroupPhaseSame(t, t3, revenue);
  }

  lemma AfterCostsRead(t: Table, t2: Table, revenue: seq<real>, top: Insight, loss: Insight, high: nat,
                       marketing: seq<real>, cogs: seq<real>, customers: seq<real>)
    requires WellFormed(t) && WellFormed(t2) && SameReads(t, t2)
    requires |revenue| == |marketing| == |cogs| == |t2.rows|
    requires Numeric(t2, "new_customers_acquired") == Success(customers)
    ensures AfterCosts(t2, revenue, top, loss, high, marketing, cogs).insights == AveragesOf(t, revenue, top, loss, high, marketing, cogs)
  {
    LookupSame(t, t2, "new_customers_acquired");
    var t0 := SetColumn(t2, "customer_acquisition_cost", CellsOf(Acquisition(marketing, customers)));
    SameReadsSet(t, t2, "customer_acquisition_cost", CellsOf(Acquisition(marketing, customers)));
    SameReadsSet(t, t0, "profit_margin", CellsOf(Margins(revenue, cogs)));
    AfterAveragesInsights(t, SetColumn(t0, "profit_margin", CellsOf(Margins(revenue, cogs))), revenue, top, loss, high,
                          NanMean(Acquisition(marketing, customers)), NanMean(Margins(revenue, cogs)));
  }

  lemma AfterCostsInsights(t: Table, t2: Table, revenue: seq<real>, top: Insight, loss: Insight, high: nat,
                           marketing: seq<real>, cogs: seq<real>)
    requires WellFormed(t) && WellFormed(t2) && SameReads(t, t2)
    requires |revenue| == |marketing| == |cogs| == |t2.rows|
    ensures AfterCosts(t2, revenue, top, loss, high, marketing, cogs).insights == AveragesOf(t, revenue, top, loss, high, marketing, cogs)
  {
    LookupSame(t, t2, "new_customers_acquired");
    if Numeric(t2, "new_customers_acquired").Success? {
      AfterCostsRead(t, t2, revenue, top, loss, high, marketing, cogs, Numeric(t2, "new_customers_acquired").value);
    }
  }

  lemma CostInputsSame(t: Table, u: Table)
    requires WellFormed(t) && WellFormed(u) && SameReads(t, u)
    ensures CostInputs(u) == CostInputs(t)
  {
    LookupSame(t, u, "operating_expense");
    LookupSame(t, u, "marketing_cost");
    LookupSame(t, u, "cogs");
  }

  lemma AfterMonthsRead(t: Table, t1: Table, revenue: seq<real>, top: Insight, loss: Insight,
                        opex: seq<real>, marketing: seq<real>, cogs: seq<real>)
    requires WellFormed(t) && WellFormed(t1) && SameReads(t, t1) && |revenue| == |t1.rows|
    requires CostInputs(t1) == Success((opex, marketing, cogs)) && CostInputs(t) == CostInputs(t1)
    ensures AfterMonths(t1, revenue, top, loss).insights == CostsOf(t, revenue, top, loss)
  {
    var total := TotalCost(opex, marketing, cogs);
    var t0 := SetColumn(t1, "total_cost", Nums(total));
    SameReadsSet(t, t1, "total_cost", Nums(total));
    SameReadsSet(t, t0, "cost_to_revenue_ratio", CellsOf(CostRatios(total, revenue)));
    AfterCostsInsights(t, SetColumn(t0, "cost_to_revenue_ratio", CellsOf(CostRatios(total, revenue))), revenue, top, loss,
                       HighCostCount(CostRatios(total, revenue)), marketing, cogs);
  }

  lemma AfterMonthsInsights(t: Table, t1: Table, revenue: seq<real>, top: Insight, loss: Insight)
    requires WellFormed(t) && WellFormed(t1) && SameReads(t, t1) && |revenue| == |t1.rows|
    ensures AfterMonths(t1, revenue, top, loss).insights == CostsOf(t, revenue, top, loss)
  {
    CostInputsSame(t, t1);
    if CostInputs(t1).Success? {
      var inputs := CostInputs(t1).value;
      AfterMonthsRead(t, t1, revenue, top, loss, inputs.0, inputs.1, inputs.2);
    }
  }

  /** The date and month columns leave every column the generator reads alone. */
  lemma DatePhaseSame(t: Table, parse: DateParser)
    requires WellFormed(t) && DatePhase(t, parse).Success?
    ensures SameReads(t, DatePhase(t, parse).value.0)
  {
    var dates := ToDatetimeColumn(Column(t, "date"), parse).value;
    SameReadsSelf(t);
    SameReadsSet(t, t, "date", dates);
    SameReadsSet(t, SetColumn(t, "date", dates), "month", Months(dates));
  }

  lemma RunMonths(t: Table, parse: DateParser, t1: Table, months: seq<Cell>, revenue: seq<real>, top: Insight, loss: Insight)
    requires WellFormed(t) && DatePhase(t, parse) == Success((t1, months)) && SameReads(t, t1)
    requires MonthPhase(t1, months) == Success((revenue, top, loss))
    ensures Run(t, parse).insights == Insights(t, parse)
  {
    LookupSame(t, t1, "revenue");
    AfterMonthsInsights(t, t1, revenue, top, loss);
  }

  lemma RunDated(t: Table, parse: DateParser, t1: Table, months: seq<Cell>)
    requires WellFormed(t) && DatePhase(t, parse) == Success((t1, months))
    ensures Run(t, parse).insights == Insights(t, parse)
  {
    DatePhaseSame(t, parse);
    if MonthPhase(t1, months).Success? {
      var x := MonthPhase(t1, months).value;
      RunMonths(t, parse, t1, months, x.0, x.1, x.2);
    } else {
      RunMonthsFail(t, parse, t1, months);
    }
  }

  lemma RunMonthsFail(t: Table, parse: DateParser, t1: Table, months: seq<Cell>)
    requires WellFormed(t) && DatePhase(t, parse) == Success((t1, months)) && SameReads(t, t1)
    requires MonthPhase(t1, months).Failure?
    ensures Run(t, parse).insights == Insights(t, parse)
  {
    LookupSame(t, t1, "revenue");
  }

  /** The generator's dictionary, or its error, is the one computed from the caller's
      own columns: the working columns it writes never change what it reads. */
  lemma RunInsights(t: Table, parse: DateParser)
    requires WellFormed(t)
    ensures Run(t, parse).insights == Insights(t, parse)
  {
    if DatePhase(t, parse).Success? {
      RunDated(t, parse, DatePhase(t, parse).value.0, DatePhase(t, parse).value.1);
    }
  }

  /** The columns lines 19-20 read are numbers. */
  predicate CostsRead(t: Table)
    requires WellFormed(t)
  {
    Numeric(t, "revenue").Success? && Numeric(t, "operating_expense").Success?
    && Numeric(t, "marketing_cost").Success? && Numeric(t, "cogs").Success?
  }

  /** Row by row, whether lines 19-21 flag a row: its operating expense, marketing cost
      and cost of goods add up to more than 0.8 of a positive revenue, less than 0.8 of a
      negative one, or more than nothing against no revenue. */
  predicate Flagged(t: Table, i: int)
    requires WellFormed(t) && CostsRead(t) && 0 <= i < |t.rows|
  {
    var revenue := Numeric(t, "revenue").value[i];
    var total := Numeric(t, "operating_expense").value[i] + Numeric(t, "marketing_cost").value[i] + Numeric(t, "cogs").value[i];
    if revenue > 0.0 then total > 0.8 * revenue
    else if revenue < 0.0 then total < 0.8 * revenue
    else total > 0.0
  }

  /** The cost-to-revenue ratios of the caller's rows. */
  function InputRatios(t: Table): (r: seq<Float>)
    requires WellFormed(t) && CostsRead(t)
    ensures |r| == |t.rows|
    ensures forall i :: 0 <= i < |t.rows| ==> (HighCost(r[i]) <==> Flagged(t, i))
  {
    var revenue := Numeric(t, "revenue").value;
    var total := TotalCost(Numeric(t, "operating_expense").value, Numeric(t, "marketing_cost").value, Numeric(t, "cogs").value);
    var ratios := CostRatios(total, revenue);
    assert forall i :: 0 <= i < |t.rows| ==> (HighCost(ratios[i]) <==> Flagged(t, i)) by {
      forall i | 0 <= i < |t.rows| ensures HighCost(ratios[i]) <==> Flagged(t, i) {
        HighCostRow(total[i], revenue[i]);
      }
    }
    ratios
  }

  /** The three cost columns read together succeed exactly when each reads as numbers. */
  lemma CostInputsRead(t: Table)
    requires WellFormed(t)
    ensures CostInputs(t).Success? <==>
      Numeric(t, "operating_expense").Success? && Numeric(t, "marketing_cost").Success? && Numeric(t, "cogs").Success?
    ensures CostInputs(t).Success? ==>
      CostInputs(t).value == (Numeric(t, "operating_expense").value, Numeric(t, "marketing_cost").value, Numeric(t, "cogs").value)
  {
  }

  lemma CostsOfValue(t: Table, revenue: seq<real>, top: Insight, loss: Insight)
    requires WellFormed(t) && |revenue| == |t.rows| && CostsOf(t, revenue, top, loss).Success?
    ensures CostInputs(t).Success? && Numeric(t, "new_customers_acquired").Success? && GroupPhase(t, revenue).Success?
    ensures var inputs := CostInputs(t).value;
      var groups := GroupPhase(t, revenue).value;
      CostsOf(t, revenue, top, loss).value ==
        InsightMap(top, loss, HighCostCount(CostRatios(TotalCost(inputs.0, inputs.1, inputs.2), revenue)),
                   NanMean(Acquisition(inputs.1, Numeric(t, "new_customers_acquired").value)),
                   NanMean(Margins(revenue, inputs.2)), groups.0, groups.1, groups.2)
  {
  }

  /** A computed dictionary is the map of its parts, each a function of the caller's
      columns. */
  lemma InsightsValue(t: Table, parse: DateParser)
    requires WellFormed(t) && Insights(t, parse).Success?
    ensures ToDatetimeColumn(Column(t, "date"), parse).Success? && CostsRead(t)
    ensures Numeric(t, "new_customers_acquired").Success?
    ensures MonthlyRevenue(Months(ToDatetimeColumn(Column(t, "date"), parse).value), Numeric(t, "revenue").value).Success?
    ensures GroupPhase(t, Numeric(t, "revenue").value).Success?
    ensures var revenue := Numeric(t, "revenue").value;
      var extremes := MonthlyRevenue(Months(ToDatetimeColumn(Column(t, "date"), parse).value), revenue).value;
      var groups := GroupPhase(t, revenue).value;
      Insights(t, parse).value ==
        InsightMap(extremes.0, extremes.1, HighCostCount(InputRatios(t)),
                   NanMean(Acquisition(Numeric(t, "marketing_cost").value, Numeric(t, "new_customers_acquired").value)),
                   NanMean(Margins(revenue, Numeric(t, "cogs").value)), groups.0, groups.1, groups.2)
  {
    var revenue := Numeric(t, "revenue").value;
    var extremes := MonthlyRevenue(Months(ToDatetimeColumn(Column(t, "date"), parse).value), revenue).value;
    assert Insights(t, parse) == CostsOf(t, revenue, extremes.0, extremes.1);
    CostsOfValue(t, revenue, extremes.0, extremes.1);
    CostInputsRead(t);
  }

  /** Each value of a successful run in terms of the caller's columns: the monthly
      extremes of its revenue by the month of its parsed dates, the mean acquisition cost
      and margin over its rows, its best region and product, and the sign of the
      correlation of its head count with its profit. */
  lemma RunValues(t: Table, parse: DateParser)
    requires WellFormed(t) && Run(t, parse).insights.Success?
    ensures ToDatetimeColumn(Column(t, "date"), parse).Success? && CostsRead(t)
    ensures Numeric(t, "new_customers_acquired").Success?
    ensures GroupsRead(t, Numeric(t, "revenue").value)
    ensures forall k :: k in AlwaysKeys ==> k in Run(t, parse).insights.value
    ensures var m := Run(t, parse).insights.value;
      var months := Months(ToDatetimeColumn(Column(t, "date"), parse).value);
      var revenue := Numeric(t, "revenue").value;
      && MonthlyRevenue(months, revenue).Success?
      && m[TopMonthKey] == MonthlyRevenue(months, revenue).value.0
      && m[LossMonthKey] == MonthlyRevenue(months, revenue).value.1
      && m[AvgCacKey] == AverageCac(NanMean(Acquisition(Numeric(t, "marketing_cost").value,
                                                        Numeric(t, "new_customers_acquired").value)))
      && m[AvgMarginKey] == AverageMargin(NanMean(Margins(revenue, Numeric(t, "cogs").value)))
    ensures var m := Run(t, parse).insights.value;
      var revenue := Numeric(t, "revenue").value;
      var region := TopGroup("region", Column(t, "region"), revenue).value;
      var product := TopGroup("product_name", Column(t, "product_name"), Numeric(t, "units_sold").value).value;
      && m[BestRegionKey] == BestRegion(region.0, region.1)
      && m[BestProductKey] == BestProduct(product.0, product.1)
      && m[EmployeeProfitKey] == EmployeeProfit(Relation(Numeric(t, "employee_count").value, Numeric(t, "net_profit").value))
  {
    RunInsights(t, parse);
    InsightsValue(t, parse);
    RunKeys(t, parse);
    var revenue := Numeric(t, "revenue").value;
    GroupPhaseValue(t, revenue);
    var extremes := MonthlyRevenue(Months(ToDatetimeColumn(Column(t, "date"), parse).value), revenue).value;
    var groups := GroupPhase(t, revenue).value;
    InsightMapValues(extremes.0, extremes.1, HighCostCount(InputRatios(t)),
                     NanMean(Acquisition(Numeric(t, "marketing_cost").value, Numeric(t, "new_customers_acquired").value)),
                     NanMean(Margins(revenue, Numeric(t, "cogs").value)), groups.0, groups.1, groups.2);
  }

  /** A successful run warns about costs exactly when some row of the caller's table is
      flagged, and the warning counts the caller's rows whose ratio exceeds 0.8. */
  lemma RunWarning(t: Table, parse: DateParser)
    requires WellFormed(t) && Run(t, parse).insights.Success?
    ensures CostsRead(t)
    ensures var m := Run(t, parse).insights.value;
      && (CostWarningKey in m <==> exists i :: 0 <= i < |t.rows| && Flagged(t, i))
      && (CostWarningKey in m ==> m[CostWarningKey] == CostWarning(HighCostCount(InputRatios(t))))
  {
    RunInsights(t, parse);
    InsightsWarning(t, parse);
  }

  lemma InsightsWarning(t: Table, parse: DateParser)
    requires WellFormed(t) && Insights(t, parse).Success?
    ensures CostsRead(t)
    ensures var m := Insights(t, parse).value;
      && (CostWarningKey in m <==> exists i :: 0 <= i < |t.rows| && Flagged(t, i))
      && (CostWarningKey in m ==> m[CostWarningKey] == CostWarning(HighCostCount(InputRatios(t))))
  {
    InsightsValue(t, parse);
    HighCostCountPositive(InputRatios(t));
  }

  lemma RatioKept(t2: Table, u: Table)
    requires WellFormed(t2) && WellFormed(u) && "cost_to_revenue_ratio" in t2.columns
    requires Keeps(t2, u, ["customer_acquisition_cost", "profit_margin"])
    ensures "cost_to_revenue_ratio" in u.columns && Column(u, "cost_to_revenue_ratio") == Column(t2, "cost_to_revenue_ratio")
  {
  }

  lemma AfterMonthsRatios(t: Table, t1: Table, revenue: seq<real>, top: Insight, loss: Insight)
    requires WellFormed(t) && WellFormed(t1) && SameReads(t, t1) && |revenue| == |t1.rows|
    requires Numeric(t, "revenue") == Success(revenue)
    requires AfterMonths(t1, revenue, top, loss).insights.Success?
    ensures CostsRead(t)
    ensures "cost_to_revenue_ratio" in AfterMonths(t1, revenue, top, loss).table.columns
    ensures Column(AfterMonths(t1, revenue, top, loss).table, "cost_to_revenue_ratio") == CellsOf(InputRatios(t))
  {
    LookupSame(t, t1, "operating_expense");
    LookupSame(t, t1, "marketing_cost");
    LookupSame(t, t1, "cogs");
    match CostPhase(t1, revenue)
    case Failure(e) =>
    case Success((t2, high, marketing, cogs)) =>
      var total := TotalCost(Numeric(t1, "operating_expense").value, marketing, cogs);
      CostColumnsKeep(t1, total, CostRatios(total, revenue));
      AfterCostsFacts(t2, revenue, top, loss, high, marketing, cogs);
      RatioKept(t2, AfterCosts(t2, revenue, top, loss, high, marketing, cogs).table);
  }

  /** After a successful run, the caller's table holds in `cost_to_revenue_ratio` the
      ratio of each of its rows' total cost to its revenue. */
  lemma RunStoresRatios(t: Table, parse: DateParser)
    requires WellFormed(t) && Run(t, parse).insights.Success?
    ensures CostsRead(t)
    ensures "cost_to_revenue_ratio" in Run(t, parse).table.columns
    ensures Column(Run(t, parse).table, "cost_to_revenue_ratio") == CellsOf(InputRatios(t))
  {
    var t1 := DatePhase(t, parse).value.0;
    var months := DatePhase(t, parse).value.1;
    RunDatedRatios(t, parse, t1, months);
  }

  lemma RunDatedRatios(t: Table, parse: DateParser, t1: Table, months: seq<Cell>)
    requires WellFormed(t) && DatePhase(t, parse) == Success((t1, months))
    requires Run(t, parse).insights.Success?
    ensures CostsRead(t)
    ensures "cost_to_revenue_ratio" in Run(t, parse).table.columns
    ensures Column(Run(t, parse).table, "cost_to_revenue_ratio") == CellsOf(InputRatios(t))
  {
    DatePhaseSame(t, parse);
    var x := MonthPhase(t1, months).value;
    RunMonthsRatios(t, parse, t1, months, x.0, x.1, x.2);
  }

  lemma RunMonthsRatios(t: Table, parse: DateParser, t1: Table, months: seq<Cell>,
                        revenue: seq<real>, top: Insight, loss: Insight)
    requires WellFormed(t) && DatePhase(t, parse) == Success((t1, months)) && SameReads(t, t1)
    requires MonthPhase(t1, months) == Success((revenue, top, loss))
    requires Run(t, parse).insights.Success?
    ensures CostsRead(t)
    ensures "cost_to_revenue_ratio" in Run(t, parse).table.columns
    ensures Column(Run(t, parse).table, "cost_to_revenue_ratio") == CellsOf(InputRatios(t))
  {
    assert Run(t, parse) == AfterDates(t1, months);
    assert AfterDates(t1, months) == AfterMonths(t1, revenue, top, loss);
    LookupSame(t, t1, "revenue");
    MonthPhaseRevenue(t1, months);
    AfterMonthsRatios(t, t1, revenue, top, loss);
  }

  /** The month phase's revenue is the table's revenue column. */
  lemma MonthPhaseRevenue(t: Table, months: seq<Cell>)
    requires WellFormed(t) && |months| == |t.rows|
    requires forall i :: 0 <= i < |months| ==> months[i].Period? || months[i].Missing?
    requires MonthPhase(t, months).Success?
    ensures Numeric(t, "revenue") == Success(MonthPhase(t, months).value.0)
  {
  }

  /** Lines 8-9 on the caller's table. */
  method StoreDates(df: Frame, parse: DateParser) returns (r: Result<seq<Cell>, InsightError>)
    requires WellFormed(df.Snapshot())
    modifies df
    ensures DatePhase(old(df.Snapshot()), parse) ==
              if r.Success? then Success((df.Snapshot(), r.value)) else Failure(r.error)
    ensures r.Failure? ==> df.Snapshot() == old(df.Snapshot())
  {
    var dateCells := Lookup(df.Snapshot(), "date");
    if dateCells.Failure? {
      return Failure(dateCells.error);
    }
    var dates := ToDatetimeColumn(dateCells.value, parse);
    if dates.Failure? {
      return Failure(dates.error);
    }
    df.Assign("date", dates.value);
    var months := Months(dates.value);
    df.Assign("month", months);
    r := Success(months);
  }

  /** Lines 19-21 on the caller's table: the number of flagged rows, and the marketing
      and cost-of-goods columns read on the way. */
  method StoreCosts(df: Frame, revenue: seq<real>) returns (r: Result<(nat, seq<real>, seq<real>), InsightError>)
    requires WellFormed(df.Snapshot()) && |revenue| == |df.rows|
    modifies df
    ensures CostPhase(old(df.Snapshot()), revenue) ==
              if r.Success? then Success((df.Snapshot(), r.value.0, r.value.1, r.value.2)) else Failure(r.error)
    ensures r.Failure? ==> df.Snapshot() == old(df.Snapshot())
  {
    var opexCells := Lookup(df.Snapshot(), "operating_expense");
    if opexCells.Failure? {
      return Failure(opexCells.error);
    }
    var marketingCells := Lookup(df.Snapshot(), "marketing_cost");
    if marketingCells.Failure? {
      return Failure(marketingCells.error);
    }
    var opex := AsReals("operating_expense", opexCells.value);
    if opex.Failure? {
      return Failure(opex.error);
    }
    var marketing := AsReals("marketing_cost", marketingCells.value);
    if marketing.Failure? {
      return Failure(marketing.error);
    }
    var cogs := Numeric(df.Snapshot(), "cogs");
    if cogs.Failure? {
      return Failure(cogs.error);
    }
    var total := TotalCost(opex.value, marketing.value, cogs.value);
    df.Assign("total_cost", Nums(total));
    var ratios := CostRatios(total, revenue);
    df.Assign("cost_to_revenue_ratio", CellsOf(ratios));
    r := Success((HighCostCount(ratios), marketing.value, cogs.value));
  }

  /** Lines 26-33 on the caller's table: the two averages. */
  method StoreAverages(df: Frame, revenue: seq<real>, marketing: seq<real>, cogs: seq<real>)
    returns (r: Result<(Float, Float), InsightError>)
    requires WellFormed(df.Snapshot()) && |revenue| == |marketing| == |cogs| == |df.rows|
    modifies df
    ensures CacPhase(old(df.Snapshot()), revenue, marketing, cogs) ==
              if r.Success? then Success((df.Snapshot(), r.value.0, r.value.1)) else Failure(r.error)
    ensures r.Failure? ==> df.Snapshot() == old(df.Snapshot())
  {
    var customers := Numeric(df.Snapshot(), "new_customers_acquired");
    if customers.Failure? {
      return Failure(customers.error);
    }
    var cac := Acquisition(marketing, customers.value);
    df.Assign("customer_acquisition_cost", CellsOf(cac));
    var margins := Margins(revenue, cogs);
    df.Assign("profit_margin", CellsOf(margins));
    r := Success((NanMean(cac), NanMean(margins)));
  }

  /** `generate_business_insights(df)`: writes its columns into `df` block by block and
      builds the dictionary key by key; a block that raises leaves `df` with the columns
      written before it. */
  method GenerateBusinessInsights(df: Frame, parse: DateParser) returns (r: Result<map<string, Insight>, InsightError>)
    requires WellFormed(df.Snapshot())
    modifies df
    ensures Outcome(df.Snapshot(), r) == Run(old(df.Snapshot()), parse)
  {
    var insights: map<string, Insight> := map[];
    var months := StoreDates(df, parse);
    if months.Failure? {
      return Failure(months.error);
    }
    var monthly := MonthPhase(df.Snapshot(), months.value);
    if monthly.Failure? {
      return Failure(monthly.error);
    }
    var (revenue, top, loss) := monthly.value;
    insights := insights[TopMonthKey := top][LossMonthKey := loss];

    var costs := StoreCosts(df, revenue);
    if costs.Failure? {
      return Failure(costs.error);
    }
    var (high, marketing, cogs) := costs.value;
    if high > 0 {
      insights := insights[CostWarningKey := CostWarning(high)];
    }

    var averages := StoreAverages(df, revenue, marketing, cogs);
    if averages.Failure? {
      return Failure(averages.error);
    }
    insights := insights[AvgCacKey := AverageCac(averages.value.0)][AvgMarginKey := AverageMargin(averages.value.1)];

    var groups := GroupPhase(df.Snapshot(), revenue);
    if groups.Failure? {
      return Failure(groups.error);
    }
    var (region, product, employee) := groups.value;
    insights := insights[BestRegionKey := region][BestProductKey := product][EmployeeProfitKey := employee];
    r := Success(insights);
  }
}
