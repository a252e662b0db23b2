/** Validation and cleaning of an uploaded table: column-name normalisation, the
    required-column check, date coercion, dropping incomplete rows. */
module CleanData {

  import opened Results
  import opened Seqs
  import opened Calendar
  import opened Tables

  /** The columns every dataset must have, in the order they are reported. */
  const RequiredColumns: seq<string> := [
    "date", "revenue", "net_profit", "cogs", "operating_expense",
    "marketing_cost", "investment_cost", "total_customers", "orders"
  ]

  // ---------------------------------------------------------------------------
  // Column-name normalisation: strip, spaces to underscores, lower-case.

  /** Python's `str.isspace` for one character. */
  predicate IsSpace(c: char)
  {
    var n := c as int;
    (9 <= n <= 13) || (28 <= n <= 32) || n == 0x85 || n == 0xA0 || n == 0x1680
      || (0x2000 <= n <= 0x200A) || n == 0x2028 || n == 0x2029 || n == 0x202F
      || n == 0x205F || n == 0x3000
  }

  /** An ASCII capital letter; other Unicode capitals are not lower-cased by this model. */
  predicate IsUpper(c: char)
  {
    'A' <= c <= 'Z'
  }

  /** Number of whitespace characters at the start of `s`. */
  function LeadingSpace(s: string): (n: nat)
    ensures n <= |s|
    ensures forall k :: 0 <= k < n ==> IsSpace(s[k])
    ensures n < |s| ==> !IsSpace(s[n])
  {
    if s != [] && IsSpace(s[0]) then 1 + LeadingSpace(s[1..]) else 0
  }

  /** Number of whitespace characters at the end of `s`. */
  function TrailingSpace(s: string): (n: nat)
    ensures n <= |s|
    ensures forall k :: |s| - n <= k < |s| ==> IsSpace(s[k])
    ensures n < |s| ==> !IsSpace(s[|s| - 1 - n])
  {
    if s != [] && IsSpace(s[|s| - 1]) then 1 + TrailingSpace(s[..|s| - 1]) else 0
  }

  /** `str.strip()`: `s` without its leading and trailing whitespace. */
  function Strip(s: string): (r: string)
    ensures r == [] || (!IsSpace(r[0]) && !IsSpace(r[|r| - 1]))
    ensures LeadingSpace(s) == |s| ==> r == []
    ensures LeadingSpace(s) < |s| ==> r == s[LeadingSpace(s)..|s| - TrailingSpace(s)]
  {
    var lead := LeadingSpace(s);
    if lead == |s| then []
    else
      var trail := TrailingSpace(s);
      assert !IsSpace(s[lead]);
      s[lead..|s| - trail]
  }

  /** `str.replace(" ", "_")`. */
  function ReplaceSpaces(s: string): (r: string)
    ensures |r| == |s|
    ensures forall k :: 0 <= k < |s| ==> r[k] == if s[k] == ' ' then '_' else s[k]
  {
    seq(|s|, k requires 0 <= k < |s| => if s[k] == ' ' then '_' else s[k])
  }

  /** `str.lower()` on ASCII letters. */
  function LowerChar(c: char): (d: char)
    ensures !IsUpper(d)
    ensures IsSpace(d) == IsSpace(c) && (d == ' ') == (c == ' ')
  {
    if IsUpper(c) then (c as int + 32) as char else c
  }

  function Lower(s: string): (r: string)
    ensures |r| == |s|
    ensures forall k :: 0 <= k < |s| ==> r[k] == LowerChar(s[k])
  {
    seq(|s|, k requires 0 <= k < |s| => LowerChar(s[k]))
  }

  /** A column name as the validator normalises it. */
  function NormalizeName(s: string): (r: string)
    ensures r == [] || (!IsSpace(r[0]) && !IsSpace(r[|r| - 1]))
    ensures forall k :: 0 <= k < |r| ==> r[k] != ' ' && !IsUpper(r[k])
  {
    Lower(ReplaceSpaces(Strip(s)))
  }

  /** A name that normalisation leaves as it is. */
  predicate IsNormalName(s: string)
  {
    (s == [] || (!IsSpace(s[0]) && !IsSpace(s[|s| - 1])))
      && forall k :: 0 <= k < |s| ==> s[k] != ' ' && !IsUpper(s[k])
  }

  lemma NormalNameFixed(s: string)
    requires IsNormalName(s)
    ensures NormalizeName(s) == s
  {
    assert Strip(s) == s by {
      if s != [] {
        assert LeadingSpace(s) == 0;
        assert TrailingSpace(s) == 0;
        assert s[0..|s|] == s;
      }
    }
    assert ReplaceSpaces(s) == s;
    assert Lower(s) == s;
  }

  /** Normalising a name twice changes nothing more than normalising it once. */
  lemma NormalizeIdempotent(s: string)
    ensures IsNormalName(NormalizeName(s))
    ensures NormalizeName(NormalizeName(s)) == NormalizeName(s)
  {
    NormalNameFixed(NormalizeName(s));
  }

  function NormalizeColumns(cols: seq<string>): (r: seq<string>)
    ensures |r| == |cols|
    ensures forall j :: 0 <= j < |cols| ==> r[j] == NormalizeName(cols[j])
  {
    seq(|cols|, j requires 0 <= j < |cols| => NormalizeName(cols[j]))
  }

  lemma NormalizeColumnsIdempotent(cols: seq<string>)
    ensures NormalizeColumns(NormalizeColumns(cols)) == NormalizeColumns(cols)
  {
    forall j | 0 <= j < |cols| {
      NormalizeIdempotent(cols[j]);
    }
  }

  // ---------------------------------------------------------------------------
  // Required columns.

  /** The required columns absent from `cols`, in the order of RequiredColumns. */
  function MissingColumns(cols: seq<string>): (r: seq<string>)
    ensures forall c :: c in r <==> c in RequiredColumns && c !in cols
  {
    Filter(RequiredColumns, (c: string) => c !in cols)
  }

  // ---------------------------------------------------------------------------
  // Dates and missing values.

  /** `pd.to_datetime(..., errors='coerce')` on one cell: NaT (Missing) when it cannot
      be read as a date. */
  function CoerceDate(parse: DateParser, c: Cell): (r: Cell)
    ensures r.Stamp? || r.Missing?
  {
    match c
    case Stamp(_) => c
    case Missing => Missing
    case _ =>
      match parse(c)
      case Some(d) => Stamp(d)
      case None => Missing
  }

  /** A date cell the validator rejects. */
  predicate Unparseable(parse: DateParser, c: Cell)
  {
    CoerceDate(parse, c).Missing?
  }

  /** The table with its `date` column coerced. */
  function CoerceDateColumn(t: Table, parse: DateParser): (r: Table)
    requires WellFormed(t) && "date" in t.columns
    ensures WellFormed(r) && r.columns == t.columns && |r.rows| == |t.rows|
    ensures forall i :: 0 <= i < |t.rows| ==>
              r.rows[i][ColumnIndex(t, "date")] == CoerceDate(parse, t.rows[i][ColumnIndex(t, "date")])
    ensures forall i, k :: 0 <= i < |t.rows| && 0 <= k < |t.columns| && k != ColumnIndex(t, "date") ==>
              r.rows[i][k] == t.rows[i][k]
  {
    var dates := Column(t, "date");
    SetColumn(t, "date", seq(|dates|, i requires 0 <= i < |dates| => CoerceDate(parse, dates[i])))
  }

  /** A row whose cell `j` holds a value. */
  function HasValueAt(j: nat): seq<Cell> -> bool
  {
    (row: seq<Cell>) => j < |row| && !row[j].Missing?
  }

  /** A row whose date failed to parse (an `isna()` date after coercion). */
  function DateMissingAt(j: nat): seq<Cell> -> bool
  {
    (row: seq<Cell>) => j < |row| && row[j].Missing?
  }

  /** A row without missing values (what `dropna()` keeps). */
  predicate Complete(row: seq<Cell>)
  {
    forall k :: 0 <= k < |row| ==> !row[k].Missing?
  }

  // ---------------------------------------------------------------------------
  // Errors.

  /** The three ways validation fails; each is raised as a ValueError whose text is
      Message(error). */
  datatype ValidationError =
    | MissingRequired(missing: seq<string>, uploaded: seq<string>)
    | InvalidDates(count: nat)
    | NoValidData

  function Join(parts: seq<string>, sep: string): string
  {
    if parts == [] then ""
    else if |parts| == 1 then parts[0]
    else parts[0] + sep + Join(parts[1..], sep)
  }

  function DigitChar(d: nat): char
    requires d < 10
  {
    ('0' as int + d) as char
  }

  function NatToString(n: nat): string
  {
    if n < 10 then [DigitChar(n)] else NatToString(n / 10) + [DigitChar(n % 10)]
  }

  /** The text of the ValueError raised for each failure. */
  function Message(e: ValidationError): string
  {
    match e
    case MissingRequired(missing, uploaded) =>
      "Your dataset is missing these required columns: " + Join(missing, ", ")
        + "\nUploaded columns: " + Join(uploaded, ", ")
        + "\nRequired columns: " + Join(RequiredColumns, ", ")
    case InvalidDates(n) =>
      "Found " + NatToString(n) + " invalid date format(s). Dates must be in YYYY-MM-DD format."
    case NoValidData =>
      "No valid data remaining after cleaning. Please check for missing values in required columns."
  }

  // ---------------------------------------------------------------------------
  // Validation as a whole.

  /** The table after renaming and date coercion (meaningful once the column check
      has passed). */
  function Coerced(t: Table, parse: DateParser): (r: Table)
    requires WellFormed(t) && MissingColumns(NormalizeColumns(t.columns)) == []
    ensures WellFormed(r) && r.columns == NormalizeColumns(t.columns) && |r.rows| == |t.rows|
  {
    assert "date" in NormalizeColumns(t.columns) by {
      assert "date" in RequiredColumns;
    }
    CoerceDateColumn(Table(NormalizeColumns(t.columns), t.rows), parse)
  }

  /** Number of rows whose date failed to parse. */
  function InvalidDateCount(t: Table): nat
    requires "date" in t.columns
  {
    |Filter(t.rows, DateMissingAt(ColumnIndex(t, "date")))|
  }

  /** What `load_and_validate_data` returns for `t`, or the error it raises. */
  function Validate(t: Table, parse: DateParser): (r: Result<Table, ValidationError>)
    requires WellFormed(t)
    ensures (r.Failure? && r.error.MissingRequired?) <==> MissingColumns(NormalizeColumns(t.columns)) != []
    ensures r.Failure? && r.error.MissingRequired? ==>
              r.error == MissingRequired(MissingColumns(NormalizeColumns(t.columns)), t.columns)
    ensures r.Failure? && r.error.InvalidDates? ==> r.error.count > 0
    ensures r.Success? ==> r.value.columns == NormalizeColumns(t.columns)
    ensures r.Success? ==> forall c :: c in RequiredColumns ==> c in r.value.columns
    ensures r.Success? ==> WellFormed(r.value) && r.value.rows != [] && |r.value.rows| <= |t.rows|
    ensures r.Success? ==> forall i :: 0 <= i < |r.value.rows| ==> Complete(r.value.rows[i])
    ensures r.Success? ==> forall i :: 0 <= i < |r.value.rows| ==>
              r.value.rows[i][ColumnIndex(r.value, "date")].Stamp?
  {
    var cols := NormalizeColumns(t.columns);
    var missing := MissingColumns(cols);
    if missing != [] then Failure(MissingRequired(missing, t.columns))
    else
      var coerced := Coerced(t, parse);
      var bad := InvalidDateCount(coerced);
      if bad > 0 then Failure(InvalidDates(bad))
      else
        var j := ColumnIndex(coerced, "date");
        var kept := Filter(Filter(coerced.rows, HasValueAt(j)), Complete);
        if kept == [] then Failure(NoValidData)
        else
          CleanedTable(coerced, j, kept);
          Success(Table(cols, kept))
  }

  /** The table of the rows kept from a coerced table is well formed, no larger, and its
      rows are complete and dated. */
  lemma CleanedTable(coerced: Table, j: nat, kept: seq<seq<Cell>>)
    requires WellFormed(coerced) && "date" in coerced.columns && j == ColumnIndex(coerced, "date")
    requires forall i :: 0 <= i < |coerced.rows| ==> coerced.rows[i][j].Stamp? || coerced.rows[i][j].Missing?
    requires kept == Filter(Filter(coerced.rows, HasValueAt(j)), Complete)
    ensures var u := Table(coerced.columns, kept);
      && WellFormed(u) && |u.rows| <= |coerced.rows|
      && (forall i :: 0 <= i < |u.rows| ==> Complete(u.rows[i]))
      && (forall i :: 0 <= i < |u.rows| ==> u.rows[i][ColumnIndex(u, "date")].Stamp?)
  {
    var dated := Filter(coerced.rows, HasValueAt(j));
    forall i | 0 <= i < |kept|
      ensures |kept[i]| == |coerced.columns| && kept[i][j].Stamp? && Complete(kept[i])
    {
      assert kept[i] in dated;
      var k :| 0 <= k < |coerced.rows| && coerced.rows[k] == kept[i];
    }
  }

  /** Once no date is invalid, the `dropna(subset=['date'])` step removes nothing. */
  lemma DateDropRemovesNothing(t: Table, parse: DateParser)
    requires WellFormed(t) && MissingColumns(NormalizeColumns(t.columns)) == []
    requires InvalidDateCount(Coerced(t, parse)) == 0
    ensures Filter(Coerced(t, parse).rows, HasValueAt(ColumnIndex(Coerced(t, parse), "date")))
            == Coerced(t, parse).rows
  {
    var c := Coerced(t, parse);
    var j := ColumnIndex(c, "date");
    assert Filter(c.rows, DateMissingAt(j)) == [];
    forall i | 0 <= i < |c.rows|
      ensures HasValueAt(j)(c.rows[i])
    {
      assert !DateMissingAt(j)(c.rows[i]);
    }
    FilterAll(c.rows, HasValueAt(j));
  }

  /** A failing date check reports exactly the number of rows whose date does not parse. */
  lemma InvalidDatesReported(t: Table, parse: DateParser)
    requires WellFormed(t) && MissingColumns(NormalizeColumns(t.columns)) == []
    ensures InvalidDateCount(Coerced(t, parse)) ==
            |Filter(t.rows, (row: seq<Cell>) =>
                  ColumnIndex(Coerced(t, parse), "date") < |row|
                  && Unparseable(parse, row[ColumnIndex(Coerced(t, parse), "date")]))|
    ensures InvalidDateCount(Coerced(t, parse)) > 0 ==>
            Validate(t, parse) == Failure(InvalidDates(InvalidDateCount(Coerced(t, parse))))
  {
    var c := Coerced(t, parse);
    var j := ColumnIndex(c, "date");
    var bad := (row: seq<Cell>) => j < |row| && Unparseable(parse, row[j]);
    CoercedRowsAgree(t.rows, c.rows, j, parse, bad);
  }

  lemma {:induction false} CoercedRowsAgree(rows: seq<seq<Cell>>, coerced: seq<seq<Cell>>, j: nat,
                                            parse: DateParser, bad: seq<Cell> -> bool)
    requires |coerced| == |rows|
    requires forall i :: 0 <= i < |rows| ==> j < |rows[i]| && j < |coerced[i]|
    requires forall i :: 0 <= i < |rows| ==> coerced[i][j] == CoerceDate(parse, rows[i][j])
    requires forall row :: bad(row) == (j < |row| && Unparseable(parse, row[j]))
    ensures |Filter(coerced, DateMissingAt(j))| == |Filter(rows, bad)|
  {
    if rows != [] {
      CoercedRowsAgree(rows[1..], coerced[1..], j, parse, bad);
    }
  }

  /** On success the result is exactly the renamed, coerced input rows without missing
      values, in their original order. */
  lemma ValidatedRows(t: Table, parse: DateParser)
    requires WellFormed(t) && Validate(t, parse).Success?
    ensures MissingColumns(NormalizeColumns(t.columns)) == []
    ensures Validate(t, parse).value.rows == Filter(Coerced(t, parse).rows, Complete)
  {
    DateDropRemovesNothing(t, parse);
  }

  /** A table with every required column and only parseable dates is accepted exactly when
      some coerced row is complete; otherwise the error is the one for no valid data. */
  lemma ValidateSucceedsIff(t: Table, parse: DateParser)
    requires WellFormed(t) && MissingColumns(NormalizeColumns(t.columns)) == []
    requires InvalidDateCount(Coerced(t, parse)) == 0
    ensures Validate(t, parse).Success? <==> Filter(Coerced(t, parse).rows, Complete) != []
    ensures Validate(t, parse).Failure? ==> Validate(t, parse).error == NoValidData
  {
    DateDropRemovesNothing(t, parse);
  }

  /** Validation does not depend on how the uploaded column names were written: a table
      that validates gives the same result when its names are normalised beforehand. */
  lemma ValidateIgnoresNameSpelling(t: Table, parse: DateParser)
    requires WellFormed(t) && Validate(t, parse).Success?
    ensures Validate(Table(NormalizeColumns(t.columns), t.rows), parse) == Validate(t, parse)
  {
    NormalizeColumnsIdempotent(t.columns);
  }

  /** The validation step, run on the caller's table object: its columns are renamed in
      place, and its date column is coerced in place once the column check passes, even
      when a later check fails. */
  method LoadAndValidateData(df: Frame, parse: DateParser) returns (r: Result<Table, ValidationError>)
    requires WellFormed(df.Snapshot())
    modifies df
    ensures r == Validate(old(df.Snapshot()), parse)
    ensures df.columns == NormalizeColumns(old(df.columns))
    ensures MissingColumns(df.columns) != [] ==> df.rows == old(df.rows)
    ensures MissingColumns(df.columns) == [] ==> df.Snapshot() == Coerced(old(df.Snapshot()), parse)
  {
    var uploaded := df.columns;
    df.columns := NormalizeColumns(df.columns);
    var missing := MissingColumns(df.columns);
    if missing != [] {
      r := Failure(MissingRequired(missing, uploaded));
      return;
    }
    var coerced := CoerceDateColumn(df.Snapshot(), parse);
    df.rows := coerced.rows;
    var bad := InvalidDateCount(coerced);
    if bad > 0 {
      r := Failure(InvalidDates(bad));
      return;
    }
    var j := ColumnIndex(coerced, "date");
    var kept := Filter(Filter(df.rows, HasValueAt(j)), Complete);
    if kept == [] {
      r := Failure(NoValidData);
      return;
    }
    r := Success(Table(df.columns, kept));
  }
}
