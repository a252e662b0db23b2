/** The in-memory table (a pandas DataFrame): named columns over rows of cells. */
module Tables {

  import opened Results
  import opened Seqs
  import opened Floats
  import opened Calendar

  /** One cell. `Missing` is every pandas missing marker (NaN, None, NaT); `Inf` an
      infinite float; `Stamp` a timestamp; `Period` a monthly period. */
  datatype Cell =
    | Missing
    | Num(v: real)
    | Inf(negative: bool)
    | Text(s: string)
    | Stamp(date: Date)
    | Period(period: YearMonth)

  /** `pd.to_datetime` applied to one value that is neither a timestamp nor missing;
      None when the value cannot be read as a date. Its format inference is not
      modelled: it is a parameter of the operations that parse dates. */
  type DateParser = Cell -> Option<Date>

  datatype Table = Table(columns: seq<string>, rows: seq<seq<Cell>>)

  /** Every row has one cell per column. */
  predicate WellFormed(t: Table)
  {
    forall i :: 0 <= i < |t.rows| ==> |t.rows[i]| == |t.columns|
  }

  /** Position of the (first) column called `name`: what `df[name]` selects. */
  function ColumnIndex(t: Table, name: string): (j: nat)
    requires name in t.columns
    ensures j < |t.columns| && t.columns[j] == name
    ensures forall k :: 0 <= k < j ==> t.columns[k] != name
  {
    IndexOf(t.columns, name).value
  }

  /** The cells of column `name`, one per row. */
  function Column(t: Table, name: string): (c: seq<Cell>)
    requires WellFormed(t) && name in t.columns
    ensures |c| == |t.rows|
    ensures forall i :: 0 <= i < |t.rows| ==> c[i] == t.rows[i][ColumnIndex(t, name)]
  {
    var j := ColumnIndex(t, name);
    seq(|t.rows|, i requires 0 <= i < |t.rows| => t.rows[i][j])
  }

  lemma IndexOfSnoc(s: seq<string>, x: string, c: string)
    requires c in s
    ensures IndexOf(s + [x], c) == IndexOf(s, c)
  {
    var k := IndexOf(s, c).value;
    var k' := IndexOf(s + [x], c).value;
    assert (s + [x])[k] == c;
    assert k' <= k;
    assert s[k'] == c;
  }

  /** `df[name] = values`: overwrites the column when it exists, appends it otherwise;
      every other cell is kept. */
  function SetColumn(t: Table, name: string, values: seq<Cell>): (r: Table)
    requires WellFormed(t) && |values| == |t.rows|
    ensures WellFormed(r) && |r.rows| == |t.rows|
    ensures r.columns == if name in t.columns then t.columns else t.columns + [name]
    ensures Column(r, name) == values
    ensures forall i, j :: 0 <= i < |t.rows| && 0 <= j < |t.columns| && t.columns[j] != name ==>
              r.rows[i][j] == t.rows[i][j]
    ensures forall c :: c in t.columns && c != name ==> Column(r, c) == Column(t, c)
  {
    if name in t.columns then
      var j := ColumnIndex(t, name);
      var r := Table(t.columns, seq(|t.rows|, i requires 0 <= i < |t.rows| => t.rows[i][j := values[i]]));
      assert forall c :: c in t.columns ==> ColumnIndex(r, c) == ColumnIndex(t, c);
      r
    else
      var r := Table(t.columns + [name], seq(|t.rows|, i requires 0 <= i < |t.rows| => t.rows[i] + [values[i]]));
      assert forall c :: c in t.columns ==> ColumnIndex(r, c) == ColumnIndex(t, c) by {
        forall c | c in t.columns ensures ColumnIndex(r, c) == ColumnIndex(t, c) {
          IndexOfSnoc(t.columns, name, c);
        }
      }
      r
  }

  /** `pd.concat([t, row], ignore_index=True)` for a row over the same columns: every
      column gains the row's cell at its position. */
  function WithRow(t: Table, row: seq<Cell>): (r: Table)
    requires WellFormed(t) && |row| == |t.columns|
    ensures WellFormed(r) && r.columns == t.columns && |r.rows| == |t.rows| + 1
    ensures forall c :: c in t.columns ==> Column(r, c) == Column(t, c) + [row[ColumnIndex(t, c)]]
  {
    Table(t.columns, t.rows + [row])
  }

  /** The value of a numeric cell as a float; None for text and timestamps, on which
      pandas arithmetic raises a TypeError. */
  function FloatOf(c: Cell): Option<Float>
  {
    match c
    case Missing => Some(NaN)
    case Num(x) => Some(Fin(x))
    case Inf(negative) => Some(if negative then NegInf else PosInf)
    case _ => None
  }

  /** A float stored in a column (NaN is the missing marker). */
  function CellOf(f: Float): (c: Cell)
    ensures FloatOf(c) == Some(f)
  {
    match f
    case Fin(x) => Num(x)
    case PosInf => Inf(false)
    case NegInf => Inf(true)
    case NaN => Missing
  }

  predicate IsNumeric(c: Cell)
  {
    FloatOf(c).Some?
  }

  /** The floats of a column all of whose cells are numeric. */
  function FloatsOf(cells: seq<Cell>): (r: seq<Float>)
    requires forall i :: 0 <= i < |cells| ==> IsNumeric(cells[i])
    ensures |r| == |cells| && forall i :: 0 <= i < |cells| ==> Some(r[i]) == FloatOf(cells[i])
  {
    seq(|cells|, i requires 0 <= i < |cells| && IsNumeric(cells[i]) => FloatOf(cells[i]).value)
  }

  function CellsOf(fs: seq<Float>): (r: seq<Cell>)
    ensures |r| == |fs| && forall i :: 0 <= i < |fs| ==> r[i] == CellOf(fs[i])
  {
    seq(|fs|, i requires 0 <= i < |fs| => CellOf(fs[i]))
  }

  /** A table object that the source updates in place (`df.columns = ...`,
      `df[name] = ...`). */
  class Frame {
    var columns: seq<string>
    var rows: seq<seq<Cell>>

    constructor (t: Table)
      ensures Snapshot() == t
    {
      columns := t.columns;
      rows := t.rows;
    }

    /** The table the object currently holds. */
    function Snapshot(): Table
      reads this
    {
      Table(columns, rows)
    }

    /** `df[name] = values`. */
    method Assign(name: string, values: seq<Cell>)
      requires WellFormed(Snapshot()) && |values| == |rows|
      modifies this
      ensures Snapshot() == SetColumn(old(Snapshot()), name, values)
    {
      var r := SetColumn(Snapshot(), name, values);
      columns, rows := r.columns, r.rows;
    }

    /** `df = pd.concat([df, row], ignore_index=True)`. */
    method Append(row: seq<Cell>)
      requires WellFormed(Snapshot()) && |row| == |columns|
      modifies this
      ensures Snapshot() == WithRow(old(Snapshot()), row)
    {
      rows := rows + [row];
    }
  }
}
