/** Derived financial metrics, each added to a copy of the table only when the columns
    it is computed from are present. */
module ExtractMetrics {

  import opened Results
  import opened Seqs
  import opened Floats
  import opened Tables
  import CleanData

  const ProfitMarginColumn := "Profit_Margin (%)"
  const RoiColumn := "ROI (%)"
  const RevenueGrowthColumn := "Revenue_Growth (%)"
  const ProfitGrowthColumn := "Profit_Growth (%)"
  const BepColumn := "BEP"

  /** The derived columns, in the order the extractor adds them. */
  const DerivedColumns: seq<string> :=
    [ProfitMarginColumn, RoiColumn, RevenueGrowthColumn, ProfitGrowthColumn, BepColumn]

  /** A formula met a text or timestamp operand (pandas raises a TypeError); the field
      names the column that was being computed. */
  datatype FeatureError = NonNumericOperand(derived: string)

  /** The floats of column `name`, or None when one of its cells is not numeric. */
  function Numeric(t: Table, name: string): (r: Option<seq<Float>>)
    requires WellFormed(t) && name in t.columns
    ensures r.Some? <==> forall i :: 0 <= i < |t.rows| ==> IsNumeric(Column(t, name)[i])
    ensures r.Some? ==> |r.value| == |t.rows|
    ensures r.Some? ==> forall i :: 0 <= i < |t.rows| ==> FloatOf(Column(t, name)[i]) == Some(r.value[i])
  {
    var c := Column(t, name);
    if forall i :: 0 <= i < |c| ==> IsNumeric(c[i]) then Some(FloatsOf(c)) else None
  }

  /** `a / b * 100`, element by element. */
  function PercentRatio(a: seq<Float>, b: seq<Float>): (r: seq<Float>)
    requires |a| == |b|
    ensures |r| == |a|
    ensures forall i :: 0 <= i < |a| && a[i].Fin? && b[i].Fin? && b[i].v != 0.0 ==>
              r[i] == Fin(a[i].v / b[i].v * 100.0)
  {
    seq(|a|, i requires 0 <= i < |a| => Mul(Div(a[i], b[i]), Fin(100.0)))
  }

  /** `Series.pct_change() * 100`: undefined at the first row, then the change from the
      previous row in the current row order. */
  function PercentChange(x: seq<Float>): (r: seq<Float>)
    ensures |r| == |x|
    ensures |x| > 0 ==> r[0].NaN?
  {
    seq(|x|, i requires 0 <= i < |x| =>
      if i == 0 then NaN else Mul(Sub(Div(x[i], x[i - 1]), Fin(1.0)), Fin(100.0)))
  }

  /** The change from `p` to `a`, in percent of `p`. */
  function ChangePercent(p: real, a: real): real
    requires p != 0.0
  {
    (a - p) / p * 100.0
  }

  /** Between two finite values with a non-zero predecessor, the change is the
      relative difference in percent. */
  lemma PercentChangeAt(x: seq<Float>, i: nat, a: real, p: real)
    requires 0 < i < |x| && x[i] == Fin(a) && x[i - 1] == Fin(p) && p != 0.0
    ensures PercentChange(x)[i] == Fin(ChangePercent(p, a))
  {
    var q := a / p;
    assert PercentChange(x)[i] == Mul(Sub(Div(x[i], x[i - 1]), Fin(1.0)), Fin(100.0));
    assert Div(x[i], x[i - 1]) == Fin(q);
    assert Sub(Fin(q), Fin(1.0)) == Fin(q - 1.0);
    assert Mul(Fin(q - 1.0), Fin(100.0)) == Fin((q - 1.0) * 100.0);
    RelativeChange(a, p);
  }

  lemma RelativeChange(a: real, p: real)
    requires p != 0.0
    ensures (a / p - 1.0) * 100.0 == (a - p) / p * 100.0
  {
    assert (a - p) / p == a / p - p / p;
  }

  /** Break-even point of one row: `operating_expense / (revenue - cogs)`, 0 when the
      difference is 0; None when the row raises (a non-numeric operand it reaches). */
  function BepOf(opex: Cell, revenue: Cell, cogs: Cell): (r: Option<Float>)
    ensures revenue.Num? && cogs.Num? && revenue.v == cogs.v ==> r == Some(Fin(0.0))
    ensures revenue.Num? && cogs.Num? && revenue.v != cogs.v && opex.Num? ==>
              r == Some(Fin(opex.v / (revenue.v - cogs.v)))
  {
    match (FloatOf(revenue), FloatOf(cogs))
    case (Some(rv), Some(cg)) =>
      var margin := Sub(rv, cg);
      if margin == Fin(0.0) then Some(Fin(0.0))
      else (match FloatOf(opex)
            case Some(o) => Some(Div(o, margin))
            case None => None)
    case _ => None
  }

  /** The BEP column: the row formula when no row raises, otherwise the fallback 0 in
      every row. */
  function BepValues(opex: seq<Cell>, revenue: seq<Cell>, cogs: seq<Cell>): (r: seq<Cell>)
    requires |opex| == |revenue| == |cogs|
    ensures |r| == |opex|
    ensures (forall i :: 0 <= i < |opex| ==> BepOf(opex[i], revenue[i], cogs[i]).Some?) ==>
              forall i :: 0 <= i < |opex| ==> FloatOf(r[i]) == BepOf(opex[i], revenue[i], cogs[i])
    ensures (exists i :: 0 <= i < |opex| && BepOf(opex[i], revenue[i], cogs[i]).None?) ==>
              forall i :: 0 <= i < |opex| ==> r[i] == Num(0.0)
  {
    if forall i :: 0 <= i < |opex| ==> BepOf(opex[i], revenue[i], cogs[i]).Some? then
      seq(|opex|, i requires 0 <= i < |opex| && BepOf(opex[i], revenue[i], cogs[i]).Some? =>
        CellOf(BepOf(opex[i], revenue[i], cogs[i]).value))
    else
      seq(|opex|, i => Num(0.0))
  }

  // ---------------------------------------------------------------------------
  // The steps. Each is one guarded assignment of the source: it runs only when all its
  // input columns are present.

  datatype Step =
    | Ratio(target: string, numerator: string, denominator: string)  // numerator / denominator * 100
    | Growth(target: string, source: string)                          // source.pct_change() * 100
    | BreakEven(target: string)                                       // the BEP row formula

  /** The columns a step reads (and whose presence it checks). */
  function Inputs(s: Step): seq<string>
  {
    match s
    case Ratio(_, n, d) => [n, d]
    case Growth(_, x) => [x]
    case BreakEven(_) => ["operating_expense", "cogs", "revenue"]
  }

  predicate Applies(cols: seq<string>, s: Step)
  {
    forall x :: x in Inputs(s) ==> x in cols
  }

  /** The column a step writes, or None when its formula raises a TypeError. */
  function Computed(t: Table, s: Step): (r: Option<seq<Cell>>)
    requires WellFormed(t) && Applies(t.columns, s)
    ensures r.Some? ==> |r.value| == |t.rows|
    ensures s.Ratio? ==> (r.Some? <==> Numeric(t, s.numerator).Some? && Numeric(t, s.denominator).Some?)
    ensures s.Growth? ==> (r.Some? <==> Numeric(t, s.source).Some?)
    ensures s.BreakEven? ==> r.Some?
  {
    match s
    case Ratio(_, n, d) =>
      (match (Numeric(t, n), Numeric(t, d))
       case (Some(a), Some(b)) => Some(CellsOf(PercentRatio(a, b)))
       case _ => None)
    case Growth(_, x) =>
      (match Numeric(t, x)
       case Some(a) => Some(CellsOf(PercentChange(a)))
       case None => None)
    case BreakEven(_) =>
      Some(BepValues(Column(t, "operating_expense"), Column(t, "revenue"), Column(t, "cogs")))
  }

  /** A ratio row of two numbers with a non-zero denominator is their quotient in percent. */
  lemma RatioRow(t: Table, s: Step, i: nat)
    requires WellFormed(t) && s.Ratio? && Applies(t.columns, s) && Computed(t, s).Some?
    requires i < |t.rows|
    requires Column(t, s.numerator)[i].Num? && Column(t, s.denominator)[i].Num?
    requires Column(t, s.denominator)[i].v != 0.0
    ensures Computed(t, s).value[i] == Num(Column(t, s.numerator)[i].v / Column(t, s.denominator)[i].v * 100.0)
  {
    var a, b := Numeric(t, s.numerator).value, Numeric(t, s.denominator).value;
    assert a[i] == Fin(Column(t, s.numerator)[i].v) && b[i] == Fin(Column(t, s.denominator)[i].v);
  }

  /** A growth column is missing in its first row; a later row of two numbers with a
      non-zero predecessor is the relative change in percent. */
  lemma GrowthRow(t: Table, s: Step, i: nat)
    requires WellFormed(t) && s.Growth? && Applies(t.columns, s) && Computed(t, s).Some?
    requires i < |t.rows|
    ensures i == 0 ==> Computed(t, s).value[0] == Missing
    ensures 0 < i && Column(t, s.source)[i].Num? && Column(t, s.source)[i - 1].Num?
            && Column(t, s.source)[i - 1].v != 0.0 ==>
              Computed(t, s).value[i] == Num(ChangePercent(Column(t, s.source)[i - 1].v, Column(t, s.source)[i].v))
  {
    var x := Numeric(t, s.source).value;
    var c := Column(t, s.source);
    assert Computed(t, s).value == CellsOf(PercentChange(x));
    if 0 < i && c[i].Num? && c[i - 1].Num? && c[i - 1].v != 0.0 {
      var a, p := c[i].v, c[i - 1].v;
      assert x[i] == Fin(a) && x[i - 1] == Fin(p);
      PercentChangeAt(x, i, a, p);
      var g := ChangePercent(p, a);
      assert CellsOf(PercentChange(x))[i] == CellOf(Fin(g));
      assert CellOf(Fin(g)) == Num(g);
    }
  }

  /** A break-even row: 0 where revenue equals cogs, otherwise operating expense over the
      margin; 0 in every row once any row raises. */
  lemma BreakEvenRow(t: Table, s: Step, i: nat)
    requires WellFormed(t) && s.BreakEven? && Applies(t.columns, s)
    requires i < |t.rows|
    ensures var opex, rev, cogs := Column(t, "operating_expense"), Column(t, "revenue"), Column(t, "cogs");
            (forall k :: 0 <= k < |t.rows| ==> BepOf(opex[k], rev[k], cogs[k]).Some?) ==>
              FloatOf(Computed(t, s).value[i]) == BepOf(opex[i], rev[i], cogs[i])
    ensures var opex, rev, cogs := Column(t, "operating_expense"), Column(t, "revenue"), Column(t, "cogs");
            (exists k :: 0 <= k < |t.rows| && BepOf(opex[k], rev[k], cogs[k]).None?) ==>
              Computed(t, s).value[i] == Num(0.0)
  {
  }

  /** Every step leaves the rows, and every column other than its own, as they were. */
  predicate Keeps(t: Table, r: Table, name: string)
    requires WellFormed(t)
  {
    && WellFormed(r) && |r.rows| == |t.rows|
    && (r.columns == t.columns || (name !in t.columns && r.columns == t.columns + [name]))
    && (forall i, j :: 0 <= i < |t.rows| && 0 <= j < |t.columns| && t.columns[j] != name ==>
          r.rows[i][j] == t.rows[i][j])
    && (forall c :: c in t.columns && c != name ==> Column(r, c) == Column(t, c))
  }

  /** One step on the current copy: nothing when an input is absent, otherwise the
      computed column assigned to its target (or the TypeError). */
  function Apply(t: Table, s: Step): (r: Result<Table, FeatureError>)
    requires WellFormed(t)
    ensures r.Success? ==> Keeps(t, r.value, s.target)
    ensures !Applies(t.columns, s) ==> r == Success(t)
    ensures Applies(t.columns, s) ==> (r.Success? <==> Computed(t, s).Some?)
    ensures r.Failure? ==> r.error == NonNumericOperand(s.target)
    ensures r.Success? && Applies(t.columns, s) ==>
              r.value.columns == (if s.target in t.columns then t.columns else t.columns + [s.target])
              && Column(r.value, s.target) == Computed(t, s).value
  {
    if Applies(t.columns, s) then
      match Computed(t, s)
      case Some(c) => Success(SetColumn(t, s.target, c))
      case None => Failure(NonNumericOperand(s.target))
    else Success(t)
  }

  /** The steps in order; the first that raises ends the extraction. */
  function ApplyAll(t: Table, steps: seq<Step>): (r: Result<Table, FeatureError>)
    requires WellFormed(t)
    ensures r.Success? ==> WellFormed(r.value) && |r.value.rows| == |t.rows|
    decreases |steps|
  {
    if steps == [] then Success(t)
    else
      var t1 :- Apply(t, steps[0]);
      ApplyAll(t1, steps[1..])
  }

  /** The source's five assignments, in its order. */
  const FeatureSteps: seq<Step> := [
    Ratio(ProfitMarginColumn, "net_profit", "revenue"),
    Ratio(RoiColumn, "net_profit", "investment_cost"),
    Growth(RevenueGrowthColumn, "revenue"),
    Growth(ProfitGrowthColumn, "net_profit"),
    BreakEven(BepColumn)
  ]

  /** The features table of `t`, or the TypeError one of the formulas raises. */
  function ExtractFeatures(t: Table): Result<Table, FeatureError>
    requires WellFormed(t)
  {
    ApplyAll(t, FeatureSteps)
  }

  /** One guarded assignment on the working copy; the error it raises, if any. */
  method ApplyOnCopy(copy: Frame, s: Step) returns (err: Option<FeatureError>)
    requires WellFormed(copy.Snapshot())
    modifies copy
    ensures Apply(old(copy.Snapshot()), s).Failure? <==> err.Some?
    ensures err.Some? ==> err.value == Apply(old(copy.Snapshot()), s).error
    ensures err.None? ==> copy.Snapshot() == Apply(old(copy.Snapshot()), s).value
  {
    var t := copy.Snapshot();
    err := None;
    if Applies(t.columns, s) {
      match Computed(t, s)
      case Some(c) => copy.Assign(s.target, c);
      case None => err := Some(NonNumericOperand(s.target));
    }
  }

  /** Working through the steps: `steps` on `t` as the first step and then the rest. */
  lemma ApplyAllCons(t: Table, steps: seq<Step>)
    requires WellFormed(t) && steps != []
    ensures Apply(t, steps[0]).Failure? ==> ApplyAll(t, steps) == Failure(Apply(t, steps[0]).error)
    ensures Apply(t, steps[0]).Success? ==> ApplyAll(t, steps) == ApplyAll(Apply(t, steps[0]).value, steps[1..])
  {
  }

  /** `extract_features`: the five guarded assignments run in order on a private copy, so
      the caller's table is not changed; the result is the copy at the end. */
  method ExtractFeaturesOnCopy(df: Frame) returns (r: Result<Table, FeatureError>)
    requires WellFormed(df.Snapshot())
    ensures r == ExtractFeatures(df.Snapshot())
  {
    var copy := new Frame(df.Snapshot());
    var err;
    // profit margin
    Advance(copy.Snapshot(), 0);
    err := ApplyOnCopy(copy, FeatureSteps[0]);
    if err.Some? {
      return Failure(err.value);
    }
    // ROI
    Advance(copy.Snapshot(), 1);
    err := ApplyOnCopy(copy, FeatureSteps[1]);
    if err.Some? {
      return Failure(err.value);
    }
    // revenue growth
    Advance(copy.Snapshot(), 2);
    err := ApplyOnCopy(copy, FeatureSteps[2]);
    if err.Some? {
      return Failure(err.value);
    }
    // profit growth
    Advance(copy.Snapshot(), 3);
    err := ApplyOnCopy(copy, FeatureSteps[3]);
    if err.Some? {
      return Failure(err.value);
    }
    // break-even point
    Advance(copy.Snapshot(), 4);
    err := ApplyOnCopy(copy, FeatureSteps[4]);
    if err.Some? {
      return Failure(err.value);
    }
    r := Success(copy.Snapshot());
  }

  /** Running step `k` next leaves the steps after it. */
  lemma Advance(t: Table, k: nat)
    requires WellFormed(t) && k < |FeatureSteps|
    ensures Apply(t, FeatureSteps[k]).Failure? ==>
              ApplyAll(t, FeatureSteps[k..]) == Failure(Apply(t, FeatureSteps[k]).error)
    ensures Apply(t, FeatureSteps[k]).Success? ==>
              ApplyAll(t, FeatureSteps[k..]) == ApplyAll(Apply(t, FeatureSteps[k]).value, FeatureSteps[k + 1..])
  {
    ApplyAllCons(t, FeatureSteps[k..]);
    assert FeatureSteps[k..][0] == FeatureSteps[k] && FeatureSteps[k..][1..] == FeatureSteps[k + 1..];
  }

  // ---------------------------------------------------------------------------
  // Steps in general.

  function Targets(steps: seq<Step>): (r: seq<string>)
    ensures |r| == |steps| && forall i :: 0 <= i < |steps| ==> r[i] == steps[i].target
  {
    seq(|steps|, i requires 0 <= i < |steps| => steps[i].target)
  }

  /** Distinct targets, none of which is an input of any step. */
  predicate Independent(steps: seq<Step>)
  {
    && (forall i, j :: 0 <= i < j < |steps| ==> steps[i].target != steps[j].target)
    && (forall i, j :: 0 <= i < |steps| && 0 <= j < |steps| ==> steps[i].target !in Inputs(steps[j]))
  }

  /** No target is already a column of `t`. */
  predicate Fresh(t: Table, steps: seq<Step>)
  {
    forall i :: 0 <= i < |steps| ==> steps[i].target !in t.columns
  }

  /** The targets of the steps that apply to `cols`, in order. */
  function AddedTargets(cols: seq<string>, steps: seq<Step>): seq<string>
    decreases |steps|
  {
    if steps == [] then []
    else
      (if Applies(cols, steps[0]) then [steps[0].target] else []) + AddedTargets(cols, steps[1..])
  }

  /** `r` holds the rows of `t`, with the columns of `t` first and their cells intact. */
  predicate Preserves(t: Table, r: Table)
    requires WellFormed(t)
  {
    && WellFormed(r) && |r.rows| == |t.rows|
    && |t.columns| <= |r.columns| && r.columns[..|t.columns|] == t.columns
    && (forall i, j :: 0 <= i < |t.rows| && 0 <= j < |t.columns| ==> r.rows[i][j] == t.rows[i][j])
  }

  lemma PreservesTrans(t: Table, u: Table, v: Table)
    requires WellFormed(t) && Preserves(t, u) && Preserves(u, v)
    ensures Preserves(t, v)
  {
    assert v.columns[..|t.columns|] == v.columns[..|u.columns|][..|t.columns|];
    forall i, j | 0 <= i < |t.rows| && 0 <= j < |t.columns|
      ensures v.rows[i][j] == t.rows[i][j]
    {
      assert j < |u.columns|;
    }
  }

  lemma IndependentTail(steps: seq<Step>)
    requires steps != [] && Independent(steps)
    ensures Independent(steps[1..])
  {
    forall i, j | 0 <= i < j < |steps| - 1
      ensures steps[1..][i].target != steps[1..][j].target
    {
      assert steps[1..][i] == steps[i + 1] && steps[1..][j] == steps[j + 1];
    }
    forall i, j | 0 <= i < |steps| - 1 && 0 <= j < |steps| - 1
      ensures steps[1..][i].target !in Inputs(steps[1..][j])
    {
      assert steps[1..][i] == steps[i + 1] && steps[1..][j] == steps[j + 1];
    }
  }

  /** After the first step of an independent list on fresh targets, the rest is again on
      fresh targets and each later step applies exactly as it would have on the original. */
  lemma FirstStep(t: Table, steps: seq<Step>)
    requires WellFormed(t) && steps != [] && Independent(steps) && Fresh(t, steps)
    requires Apply(t, steps[0]).Success?
    ensures Preserves(t, Apply(t, steps[0]).value)
    ensures Apply(t, steps[0]).value.columns == t.columns + (if Applies(t.columns, steps[0]) then [steps[0].target] else [])
    ensures Independent(steps[1..]) && Fresh(Apply(t, steps[0]).value, steps[1..])
    ensures forall k :: 1 <= k < |steps| ==>
              Applies(Apply(t, steps[0]).value.columns, steps[k]) == Applies(t.columns, steps[k])
  {
    var t1 := Apply(t, steps[0]).value;
    var d := steps[0].target;
    IndependentTail(steps);
    forall i, j | 0 <= i < |t.rows| && 0 <= j < |t.columns|
      ensures t1.rows[i][j] == t.rows[i][j]
    {
      assert t.columns[j] != d;
    }
    assert t1.columns[..|t.columns|] == t.columns;
    forall i | 0 <= i < |steps[1..]|
      ensures steps[1..][i].target !in t1.columns
    {
      assert steps[1..][i] == steps[i + 1];
      assert steps[i + 1].target != d;
    }
    forall k | 1 <= k < |steps|
      ensures Applies(t1.columns, steps[k]) == Applies(t.columns, steps[k])
    {
      assert d !in Inputs(steps[k]);
    }
  }

  /** ... and computes exactly what it would have computed on the original. */
  lemma FirstStepComputes(t: Table, steps: seq<Step>)
    requires WellFormed(t) && steps != [] && Independent(steps) && Fresh(t, steps)
    requires Apply(t, steps[0]).Success?
    ensures forall k :: 1 <= k < |steps| && Applies(t.columns, steps[k]) ==>
              Applies(Apply(t, steps[0]).value.columns, steps[k]) &&
              Computed(Apply(t, steps[0]).value, steps[k]) == Computed(t, steps[k])
  {
    var t1 := Apply(t, steps[0]).value;
    var d := steps[0].target;
    forall k | 1 <= k < |steps| && Applies(t.columns, steps[k])
      ensures Applies(t1.columns, steps[k]) && Computed(t1, steps[k]) == Computed(t, steps[k])
    {
      assert d !in Inputs(steps[k]);
      ComputedReadsInputs(t, t1, steps[k]);
    }
  }

  /** A step's column depends only on its input columns. */
  lemma ComputedReadsInputs(t: Table, u: Table, s: Step)
    requires WellFormed(t) && WellFormed(u) && |u.rows| == |t.rows|
    requires Applies(t.columns, s) && Applies(u.columns, s)
    requires forall x :: x in Inputs(s) ==> Column(u, x) == Column(t, x)
    ensures Computed(u, s) == Computed(t, s)
  {
    match s
    case Ratio(_, n, d) =>
      NumericReadsColumn(t, u, n);
      NumericReadsColumn(t, u, d);
    case Growth(_, x) =>
      NumericReadsColumn(t, u, x);
    case BreakEven(_) =>
      assert Column(u, "operating_expense") == Column(t, "operating_expense");
      assert Column(u, "revenue") == Column(t, "revenue") && Column(u, "cogs") == Column(t, "cogs");
  }

  lemma NumericReadsColumn(t: Table, u: Table, name: string)
    requires WellFormed(t) && WellFormed(u) && name in t.columns && name in u.columns
    requires Column(u, name) == Column(t, name)
    ensures Numeric(u, name) == Numeric(t, name)
  {
  }

  /** Adding a column that no step reads changes none of their decisions. */
  lemma {:induction false} AddedTargetsStable(cols: seq<string>, extra: seq<string>, steps: seq<Step>)
    requires forall x, j :: x in extra && 0 <= j < |steps| ==> x !in Inputs(steps[j])
    ensures AddedTargets(cols + extra, steps) == AddedTargets(cols, steps)
    decreases |steps|
  {
    if steps != [] {
      assert Applies(cols + extra, steps[0]) == Applies(cols, steps[0]) by {
        assert forall x :: x in extra ==> x !in Inputs(steps[0]);
      }
      assert forall x, j :: x in extra && 0 <= j < |steps[1..]| ==> x !in Inputs(steps[1..][j]) by {
        assert forall j :: 0 <= j < |steps[1..]| ==> steps[1..][j] == steps[j + 1];
      }
      AddedTargetsStable(cols, extra, steps[1..]);
    }
  }

  /** An extraction keeps the rows in order with every original column and cell. */
  lemma {:induction false} ApplyAllPreserves(t: Table, steps: seq<Step>)
    requires WellFormed(t) && Independent(steps) && Fresh(t, steps) && ApplyAll(t, steps).Success?
    ensures Preserves(t, ApplyAll(t, steps).value)
    decreases |steps|
  {
    if steps == [] {
      assert t.columns[..|t.columns|] == t.columns;
    } else {
      var t1 := Apply(t, steps[0]).value;
      FirstStep(t, steps);
      ApplyAllPreserves(t1, steps[1..]);
      PreservesTrans(t, t1, ApplyAll(t1, steps[1..]).value);
    }
  }

  /** An extraction appends exactly the targets of the applicable steps, in order. */
  lemma {:induction false} ApplyAllColumns(t: Table, steps: seq<Step>)
    requires WellFormed(t) && Independent(steps) && Fresh(t, steps) && ApplyAll(t, steps).Success?
    ensures ApplyAll(t, steps).value.columns == t.columns + AddedTargets(t.columns, steps)
    decreases |steps|
  {
    if steps != [] {
      var t1 := Apply(t, steps[0]).value;
      var head := if Applies(t.columns, steps[0]) then [steps[0].target] else [];
      FirstStep(t, steps);
      ApplyAllColumns(t1, steps[1..]);
      assert forall x, j :: x in head && 0 <= j < |steps[1..]| ==> x !in Inputs(steps[1..][j]) by {
        assert forall j :: 0 <= j < |steps[1..]| ==> steps[1..][j] == steps[j + 1];
      }
      AddedTargetsStable(t.columns, head, steps[1..]);
      var rest := AddedTargets(t.columns, steps[1..]);
      assert t1.columns == t.columns + head;
      assert AddedTargets(t1.columns, steps[1..]) == rest;
      assert AddedTargets(t.columns, steps) == head + rest;
      ConcatAssoc(t.columns, head, rest);
    }
  }

  /** A name that is no step's target is never added. */
  lemma {:induction false} NotAdded(cols: seq<string>, steps: seq<Step>, x: string)
    requires forall j :: 0 <= j < |steps| ==> steps[j].target != x
    ensures x !in AddedTargets(cols, steps)
    decreases |steps|
  {
    if steps != [] {
      assert forall j :: 0 <= j < |steps[1..]| ==> steps[1..][j] == steps[j + 1];
      NotAdded(cols, steps[1..], x);
    }
  }

  /** With distinct targets, a step's target is added exactly when the step applies. */
  lemma {:induction false} TargetAddedIff(cols: seq<string>, steps: seq<Step>, k: nat)
    requires Independent(steps) && k < |steps|
    ensures steps[k].target in AddedTargets(cols, steps) <==> Applies(cols, steps[k])
    decreases |steps|
  {
    var head := if Applies(cols, steps[0]) then [steps[0].target] else [];
    var rest := AddedTargets(cols, steps[1..]);
    assert AddedTargets(cols, steps) == head + rest;
    if k == 0 {
      assert forall j :: 0 <= j < |steps[1..]| ==> steps[1..][j] == steps[j + 1];
      NotAdded(cols, steps[1..], steps[0].target);
    } else {
      IndependentTail(steps);
      assert steps[1..][k - 1] == steps[k];
      assert steps[k].target !in head;
      TargetAddedIff(cols, steps[1..], k - 1);
    }
  }

  /** A column that no later step writes keeps its contents to the end. */
  lemma {:induction false} ApplyAllLeaves(t: Table, steps: seq<Step>, c: string)
    requires WellFormed(t) && ApplyAll(t, steps).Success? && c in t.columns
    requires forall j :: 0 <= j < |steps| ==> steps[j].target != c
    ensures c in ApplyAll(t, steps).value.columns
    ensures Column(ApplyAll(t, steps).value, c) == Column(t, c)
    decreases |steps|
  {
    if steps != [] {
      var t1 := Apply(t, steps[0]).value;
      assert forall j :: 0 <= j < |steps[1..]| ==> steps[1..][j] == steps[j + 1];
      ApplyAllLeaves(t1, steps[1..], c);
    }
  }

  /** The target of an applicable step ends up holding what that step computes from the
      original table. */
  lemma {:induction false} ApplyAllValue(t: Table, steps: seq<Step>, k: nat)
    requires WellFormed(t) && Independent(steps) && Fresh(t, steps) && ApplyAll(t, steps).Success?
    requires k < |steps| && Applies(t.columns, steps[k])
    ensures steps[k].target in ApplyAll(t, steps).value.columns
    ensures Computed(t, steps[k]).Some?
    ensures Column(ApplyAll(t, steps).value, steps[k].target) == Computed(t, steps[k]).value
    decreases |steps|, 1
  {
    if k == 0 {
      FirstValue(t, steps);
    } else {
      LaterValue(t, steps, k);
    }
  }

  lemma FirstValue(t: Table, steps: seq<Step>)
    requires WellFormed(t) && Independent(steps) && Fresh(t, steps) && ApplyAll(t, steps).Success?
    requires steps != [] && Applies(t.columns, steps[0])
    ensures steps[0].target in ApplyAll(t, steps).value.columns
    ensures Computed(t, steps[0]).Some?
    ensures Column(ApplyAll(t, steps).value, steps[0].target) == Computed(t, steps[0]).value
  {
    var d := steps[0].target;
    var t1 := Apply(t, steps[0]).value;
    assert ApplyAll(t, steps) == ApplyAll(t1, steps[1..]);
    assert d in t1.columns && Column(t1, d) == Computed(t, steps[0]).value;
    forall j | 0 <= j < |steps[1..]|
      ensures steps[1..][j].target != d
    {
      assert steps[1..][j] == steps[j + 1];
    }
    ApplyAllLeaves(t1, steps[1..], d);
  }

  lemma {:induction false} LaterValue(t: Table, steps: seq<Step>, k: nat)
    requires WellFormed(t) && Independent(steps) && Fresh(t, steps) && ApplyAll(t, steps).Success?
    requires 0 < k < |steps| && Applies(t.columns, steps[k])
    ensures steps[k].target in ApplyAll(t, steps).value.columns
    ensures Computed(t, steps[k]).Some?
    ensures Column(ApplyAll(t, steps).value, steps[k].target) == Computed(t, steps[k]).value
    decreases |steps|, 0
  {
    var t1 := Apply(t, steps[0]).value;
    FirstStep(t, steps);
    FirstStepComputes(t, steps);
    assert steps[1..][k - 1] == steps[k];
    ApplyAllValue(t1, steps[1..], k - 1);
  }

  /** An extraction fails exactly when some applicable step's formula raises. */
  lemma {:induction false} ApplyAllSucceeds(t: Table, steps: seq<Step>)
    requires WellFormed(t) && Independent(steps) && Fresh(t, steps)
    ensures ApplyAll(t, steps).Success? <==>
              forall k :: 0 <= k < |steps| && Applies(t.columns, steps[k]) ==> Computed(t, steps[k]).Some?
    decreases |steps|
  {
    if steps != [] && Apply(t, steps[0]).Success? {
      var t1 := Apply(t, steps[0]).value;
      FirstStep(t, steps);
      FirstStepComputes(t, steps);
      ApplyAllSucceeds(t1, steps[1..]);
      assert forall j :: 0 <= j < |steps[1..]| ==> steps[1..][j] == steps[j + 1];
    }
  }

  // ---------------------------------------------------------------------------
  // The extractor.

  lemma FeatureStepsIndependent()
    ensures Independent(FeatureSteps)
    ensures Targets(FeatureSteps) == DerivedColumns
  {
    FeatureTargetsDistinct();
    FeatureTargetsUnread();
  }

  lemma FeatureTargetsDistinct()
    ensures forall i, j :: 0 <= i < j < |FeatureSteps| ==> FeatureSteps[i].target != FeatureSteps[j].target
  {
  }

  lemma FeatureTargetsUnread()
    ensures forall i, j :: 0 <= i < |FeatureSteps| && 0 <= j < |FeatureSteps| ==>
              FeatureSteps[i].target !in Inputs(FeatureSteps[j])
  {
    forall i, j | 0 <= i < |FeatureSteps| && 0 <= j < |FeatureSteps|
      ensures FeatureSteps[i].target !in Inputs(FeatureSteps[j])
    {
      assert FeatureSteps[i].target[0] in "PRB";
      assert forall x :: x in Inputs(FeatureSteps[j]) ==> x[0] in "rnioc";
    }
  }

  /** No derived column name is already taken (true of every validated table, see
      ValidatedTableLacksDerivedNames). */
  predicate LacksDerivedNames(t: Table)
  {
    forall c :: c in DerivedColumns ==> c !in t.columns
  }

  /** The features table has the same rows in the same order, with every original
      column and value intact. */
  lemma FeaturesKeepInput(t: Table)
    requires WellFormed(t) && LacksDerivedNames(t) && ExtractFeatures(t).Success?
    ensures Preserves(t, ExtractFeatures(t).value)
  {
    FeatureStepsIndependent();
    ApplyAllPreserves(t, FeatureSteps);
  }

  /** Exactly the derived columns whose inputs exist are added, after the original
      columns and in the order of the source's steps. */
  lemma FeatureColumns(t: Table)
    requires WellFormed(t) && LacksDerivedNames(t) && ExtractFeatures(t).Success?
    ensures ExtractFeatures(t).value.columns == t.columns + AddedTargets(t.columns, FeatureSteps)
    ensures forall k :: 0 <= k < |FeatureSteps| ==>
              (DerivedColumns[k] in ExtractFeatures(t).value.columns <==> Applies(t.columns, FeatureSteps[k]))
  {
    FeatureStepsIndependent();
    ApplyAllColumns(t, FeatureSteps);
    forall k | 0 <= k < |FeatureSteps|
      ensures DerivedColumns[k] in ExtractFeatures(t).value.columns <==> Applies(t.columns, FeatureSteps[k])
    {
      TargetAddedIff(t.columns, FeatureSteps, k);
    }
  }

  /** Each derived column present holds its formula evaluated on the original columns. */
  lemma FeatureValues(t: Table, k: nat)
    requires WellFormed(t) && LacksDerivedNames(t) && ExtractFeatures(t).Success?
    requires k < |FeatureSteps| && Applies(t.columns, FeatureSteps[k])
    ensures DerivedColumns[k] in ExtractFeatures(t).value.columns
    ensures Computed(t, FeatureSteps[k]).Some?
    ensures Column(ExtractFeatures(t).value, DerivedColumns[k]) == Computed(t, FeatureSteps[k]).value
  {
    FeatureStepsIndependent();
    ApplyAllValue(t, FeatureSteps, k);
  }

  /** The extractor raises exactly when an applicable formula meets a non-numeric value. */
  lemma FeaturesSucceedIff(t: Table)
    requires WellFormed(t) && LacksDerivedNames(t)
    ensures ExtractFeatures(t).Success? <==>
              forall k :: 0 <= k < |FeatureSteps| && Applies(t.columns, FeatureSteps[k]) ==>
                Computed(t, FeatureSteps[k]).Some?
  {
    FeatureStepsIndependent();
    ApplyAllSucceeds(t, FeatureSteps);
  }

  /** Validated column names are normalised, so they contain no upper-case letter, and
      every derived name starts with one. */
  lemma ValidatedTableLacksDerivedNames(t: Table, parse: DateParser)
    requires WellFormed(t) && CleanData.Validate(t, parse).Success?
    ensures LacksDerivedNames(CleanData.Validate(t, parse).value)
  {
    var v := CleanData.Validate(t, parse).value;
    forall c, j | c in DerivedColumns && 0 <= j < |v.columns|
      ensures v.columns[j] != c
    {
      assert v.columns[j] == CleanData.NormalizeName(t.columns[j]);
      NormalizedNotDerived(t.columns[j], c);
    }
  }

  lemma NormalizedNotDerived(s: string, d: string)
    requires d in DerivedColumns
    ensures CleanData.NormalizeName(s) != d
  {
    var n := CleanData.NormalizeName(s);
    UpperInitial(d);
    if |n| > 0 {
      assert !CleanData.IsUpper(n[0]);
    }
  }

  /** Every derived name starts with an upper-case letter. */
  lemma UpperInitial(d: string)
    requires d in DerivedColumns
    ensures |d| > 0 && CleanData.IsUpper(d[0])
  {
  }

  /** A validated table has every input column, so a successful extraction on it adds
      all five derived columns. */
  lemma ValidatedTableGetsAllFeatures(t: Table, parse: DateParser)
    requires WellFormed(t) && CleanData.Validate(t, parse).Success?
    requires ExtractFeatures(CleanData.Validate(t, parse).value).Success?
    ensures forall d :: d in DerivedColumns ==>
              d in ExtractFeatures(CleanData.Validate(t, parse).value).value.columns
  {
    var v := CleanData.Validate(t, parse).value;
    ValidatedTableLacksDerivedNames(t, parse);
    FeatureColumns(v);
    InputsRequired();
  }

  /** Every input column of the extractor is a required column. */
  lemma InputsRequired()
    ensures forall k, x :: 0 <= k < |FeatureSteps| && x in Inputs(FeatureSteps[k]) ==> x in CleanData.RequiredColumns
  {
  }
}
