/** The account and dataset store behind the dashboard (dashboard/dashboard.py), with the
    signup checks, the dataset deletion and the row filter of the insights view. The
    users file is the `users` map, the dataset directory the `files` map from
    (user, dataset id) to the stored table; the password hash is a parameter. */
module Dashboard {

  import opened Results
  import opened Seqs
  import opened Calendar
  import opened Tables
  import InsightsEngine

  /** One entry of a user's `datasets` list. */
  datatype DatasetRef = DatasetRef(id: string, filename: string, uploadDate: string)

  /** One user record of the users file. */
  datatype User = User(name: string, password: string, datasets: seq<DatasetRef>)

  /** A dataset reference with the table read from its file (`dataset["df"]`). */
  datatype Loaded = Loaded(ref: DatasetRef, df: Table)

  datatype DashboardError =
    | UnknownUser(name: string)   // `users[username]` raises KeyError
    | MissingColumn(name: string)
    | UnparseableDate
    | NotComparable(name: string) // a text or date value compared with a number

  datatype SignupResult = PasswordsDiffer | PasswordTooShort | Created | UsernameTaken

  /** Minimum password length accepted at signup. */
  const MinPasswordLength := 6

  /** The record a registration stores: the password only as its hash. */
  function NewUser(name: string, password: string, hash: string -> string): (u: User)
    ensures u.name == name && u.password == hash(password) && u.datasets == []
  {
    User(name, hash(password), [])
  }

  /** `verify_user` on a users map. */
  function Verified(users: map<string, User>, username: string, password: string, hash: string -> string): (r: Option<User>)
    ensures r.Some? <==> username in users && users[username].password == hash(password)
    ensures r.Some? ==> r.value == users[username]
  {
    if username in users && users[username].password == hash(password) then Some(users[username]) else None
  }

  /** Right after registering, the new user verifies with the same password and gets the
      new record. */
  lemma RegisterThenVerify(users: map<string, User>, username: string, password: string, name: string,
                           hash: string -> string)
    requires username !in users
    ensures Verified(users[username := NewUser(name, password, hash)], username, password, hash)
              == Some(NewUser(name, password, hash))
  {
  }

  /** Registering one user changes no other user's verification. */
  lemma RegisterKeepsOthers(users: map<string, User>, username: string, name: string, password: string,
                            other: string, otherPassword: string, hash: string -> string)
    requires other != username
    ensures Verified(users[username := NewUser(name, password, hash)], other, otherPassword, hash)
              == Verified(users, other, otherPassword, hash)
  {
  }

  /** The datasets of `username` whose file exists, in list order, with their tables. */
  function Loads(username: string, refs: seq<DatasetRef>, files: map<(string, string), Table>): seq<Loaded>
  {
    if refs == [] then []
    else
      var n := |refs| - 1;
      Loads(username, refs[..n], files)
        + if (username, refs[n].id) in files then [Loaded(refs[n], files[(username, refs[n].id)])] else []
  }

  function RefsOf(l: seq<Loaded>): (r: seq<DatasetRef>)
    ensures |r| == |l| && forall k :: 0 <= k < |l| ==> r[k] == l[k].ref
  {
    seq(|l|, k requires 0 <= k < |l| => l[k].ref)
  }

  /** `load_user_datasets` returns exactly the references whose file exists, in order,
      each with the table stored in its file. */
  lemma {:induction false} LoadsStored(username: string, refs: seq<DatasetRef>, files: map<(string, string), Table>)
    ensures var l := Loads(username, refs, files);
      && RefsOf(l) == Filter(refs, (d: DatasetRef) => (username, d.id) in files)
      && forall k :: 0 <= k < |l| ==> (username, l[k].ref.id) in files && l[k].df == files[(username, l[k].ref.id)]
  {
    var p := (d: DatasetRef) => (username, d.id) in files;
    if refs != [] {
      var n := |refs| - 1;
      LoadsStored(username, refs[..n], files);
      assert refs == refs[..n] + [refs[n]];
      FilterSnoc(refs[..n], refs[n], p);
      var front := Loads(username, refs[..n], files);
      var l := Loads(username, refs, files);
      assert forall k :: 0 <= k < |front| ==> l[k] == front[k];
      assert RefsOf(l) == RefsOf(front) + if p(refs[n]) then [refs[n]] else [];
    }
  }

  /** The ids of the shown datasets whose file name was selected for deletion. */
  function SelectedIds(shown: seq<DatasetRef>, selected: seq<string>): set<string>
  {
    if shown == [] then {}
    else
      var n := |shown| - 1;
      SelectedIds(shown[..n], selected) + if shown[n].filename in selected then {shown[n].id} else {}
  }

  /** An id is selected exactly when a shown dataset with that id has a selected name. */
  lemma {:induction false} SelectedIdsExact(shown: seq<DatasetRef>, selected: seq<string>, id: string)
    ensures id in SelectedIds(shown, selected) <==>
              exists k :: 0 <= k < |shown| && shown[k].id == id && shown[k].filename in selected
  {
    if shown != [] {
      var n := |shown| - 1;
      SelectedIdsExact(shown[..n], selected, id);
      assert forall k :: 0 <= k < n ==> shown[..n][k] == shown[k];
    }
  }

  /** The dataset files left after deleting those of `username` with the given ids. */
  function Without(files: map<(string, string), Table>, username: string, ids: set<string>): map<(string, string), Table>
  {
    map k | k in files && !(k.0 == username && k.1 in ids) :: files[k]
  }

  /** The filter condition of the delete loop. */
  function Kept(ids: set<string>): (p: DatasetRef -> bool)
  {
    (d: DatasetRef) => d.id !in ids
  }

  /** The filter of one pass of the delete loop: the datasets with another id. */
  function Other(id: string): (p: DatasetRef -> bool)
  {
    (d: DatasetRef) => d.id != id
  }

  /** The datasets whose id is not among `ids`, in order. */
  function Remaining(ds: seq<DatasetRef>, ids: set<string>): seq<DatasetRef>
  {
    if ds == [] then []
    else
      var n := |ds| - 1;
      Remaining(ds[..n], ids) + if ds[n].id in ids then [] else [ds[n]]
  }

  lemma {:induction false} RemainingFilter(ds: seq<DatasetRef>, ids: set<string>)
    ensures Remaining(ds, ids) == Filter(ds, Kept(ids))
  {
    if ds != [] {
      var n := |ds| - 1;
      RemainingFilter(ds[..n], ids);
      assert ds == ds[..n] + [ds[n]];
      FilterSnoc(ds[..n], ds[n], Kept(ids));
    }
  }

  /** One pass of the delete loop removes one more id from the list. */
  lemma DeleteStep(ds: seq<DatasetRef>, ids: set<string>, id: string)
    ensures Filter(Remaining(ds, ids), Other(id)) == Remaining(ds, ids + {id})
  {
    RemainingFilter(ds, ids);
    RemainingFilter(ds, ids + {id});
    FilterFilter(ds, Kept(ids), Other(id), Kept(ids + {id}));
  }

  /** Unlinking the file of one more selected id, when it exists. */
  lemma UnlinkStep(files: map<(string, string), Table>, before: map<(string, string), Table>, username: string, ids: set<string>, id: string)
    requires files == Without(before, username, ids)
    ensures (if (username, id) in files then files - {(username, id)} else files) == Without(before, username, ids + {id})
  {
  }

  /** Before the loop nothing is removed. */
  lemma DeleteNone(ds: seq<DatasetRef>, files: map<(string, string), Table>, username: string)
    ensures Remaining(ds, {}) == ds
    ensures Without(files, username, {}) == files
  {
    RemainingFilter(ds, {});
    FilterAll(ds, Kept({}));
  }

  /** Lines 280-288: the rows whose date lies in the chosen range and whose revenue lies
      in the chosen interval (NaN and NaT compare false). */
  predicate InWindow(date: Cell, revenue: Cell, start: Date, end: Date, low: real, high: real)
  {
    && date.Stamp? && Ordinal(start) <= Ordinal(date.date) <= Ordinal(end)
    && revenue.Num? && low <= revenue.v <= high
  }

  /** A value that pandas can compare with a number. */
  predicate Comparable(c: Cell)
  {
    c.Num? || c.Missing? || c.Inf?
  }

  function Window(di: nat, ri: nat, start: Date, end: Date, low: real, high: real): (p: seq<Cell> -> bool)
  {
    (row: seq<Cell>) => di < |row| && ri < |row| && InWindow(row[di], row[ri], start, end, low, high)
  }

  /** Lines 280-288: parse the date column, then keep the rows inside the window. */
  function FilterRows(t: Table, parse: DateParser, start: Date, end: Date, low: real, high: real): (r: Result<Table, DashboardError>)
    requires WellFormed(t)
    ensures r.Failure? <==>
              || "date" !in t.columns
              || InsightsEngine.ToDatetimeColumn(Column(t, "date"), parse).Failure?
              || "revenue" !in t.columns
              || exists i :: 0 <= i < |t.rows| && !Comparable(Column(t, "revenue")[i])
    ensures r.Failure? && "date" !in t.columns ==> r.error == MissingColumn("date")
    ensures r.Failure? && "date" in t.columns && InsightsEngine.ToDatetimeColumn(Column(t, "date"), parse).Failure? ==>
              r.error == UnparseableDate
    ensures r.Failure? && "date" in t.columns && InsightsEngine.ToDatetimeColumn(Column(t, "date"), parse).Success? ==>
              r.error == if "revenue" in t.columns then NotComparable("revenue") else MissingColumn("revenue")
  {
    if "date" !in t.columns then Failure(MissingColumn("date"))
    else match InsightsEngine.ToDatetimeColumn(Column(t, "date"), parse)
      case Failure(_) => Failure(UnparseableDate)
      case Success(dates) =>
        var u := SetColumn(t, "date", dates);
        if "revenue" !in u.columns then Failure(MissingColumn("revenue"))
        else if exists i :: 0 <= i < |u.rows| && !Comparable(Column(u, "revenue")[i]) then Failure(NotComparable("revenue"))
        else Success(Table(u.columns, Filter(u.rows, Window(ColumnIndex(u, "date"), ColumnIndex(u, "revenue"), start, end, low, high))))
  }

  /** The caller's rows with each date cell replaced by its parsed value. */
  function ParsedRows(t: Table, parse: DateParser): (rows: seq<seq<Cell>>)
    requires WellFormed(t) && "date" in t.columns && InsightsEngine.ToDatetimeColumn(Column(t, "date"), parse).Success?
    ensures |rows| == |t.rows|
  {
    var dates := InsightsEngine.ToDatetimeColumn(Column(t, "date"), parse).value;
    seq(|t.rows|, i requires 0 <= i < |t.rows| => t.rows[i][ColumnIndex(t, "date") := dates[i]])
  }

  /** The filtered table keeps the columns, and of the rows, in order, exactly those in
      the window. */
  lemma FilterRowsExact(t: Table, parse: DateParser, start: Date, end: Date, low: real, high: real)
    requires WellFormed(t) && FilterRows(t, parse, start, end, low, high).Success?
    ensures var r := FilterRows(t, parse, start, end, low, high).value;
      && "date" in t.columns && "revenue" in t.columns && r.columns == t.columns
      && WellFormed(r) && |r.rows| <= |t.rows|
      && (forall i :: 0 <= i < |r.rows| ==>
            InWindow(r.rows[i][ColumnIndex(r, "date")], r.rows[i][ColumnIndex(r, "revenue")], start, end, low, high))
      && (forall i :: 0 <= i < |t.rows| ==>
            var d := InsightsEngine.ToDatetime(parse, Column(t, "date")[i]).value;
            InWindow(d, Column(t, "revenue")[i], start, end, low, high) ==> t.rows[i][ColumnIndex(t, "date") := d] in r.rows)
      && r.rows == Filter(ParsedRows(t, parse), Window(ColumnIndex(t, "date"), ColumnIndex(t, "revenue"), start, end, low, high))
  {
    var dates := InsightsEngine.ToDatetimeColumn(Column(t, "date"), parse).value;
    var u := SetColumn(t, "date", dates);
    assert ColumnIndex(u, "date") == ColumnIndex(t, "date");
    assert ColumnIndex(u, "revenue") == ColumnIndex(t, "revenue");
    forall i | 0 <= i < |t.rows|
      ensures u.rows[i] == t.rows[i][ColumnIndex(t, "date") := dates[i]]
    {
      assert |u.rows[i]| == |t.rows[i]|;
    }
    assert u.rows == ParsedRows(t, parse);
  }

  /** Writing a column's own cells back changes nothing. */
  lemma SetColumnSame(t: Table, name: string)
    requires WellFormed(t) && name in t.columns
    ensures SetColumn(t, name, Column(t, name)) == t
  {
    var r := SetColumn(t, name, Column(t, name));
    var j := ColumnIndex(t, name);
    forall i | 0 <= i < |t.rows|
      ensures r.rows[i] == t.rows[i]
    {
      assert ColumnIndex(r, name) == j;
    }
  }

  /** On a table whose dates are parsed and whose revenues are numbers, the filter
      only drops rows. */
  lemma FilterRowsParsed(r: Table, parse: DateParser, start: Date, end: Date, low: real, high: real)
    requires WellFormed(r) && "date" in r.columns && "revenue" in r.columns
    requires forall i :: 0 <= i < |r.rows| ==> Column(r, "date")[i].Stamp? && Column(r, "revenue")[i].Num?
    ensures FilterRows(r, parse, start, end, low, high)
              == Success(Table(r.columns, Filter(r.rows, Window(ColumnIndex(r, "date"), ColumnIndex(r, "revenue"), start, end, low, high))))
  {
    var cells := Column(r, "date");
    assert forall i :: 0 <= i < |cells| ==> InsightsEngine.ToDatetime(parse, cells[i]) == Some(cells[i]);
    var parsed := InsightsEngine.ToDatetimeColumn(cells, parse);
    assert parsed.Success?;
    assert forall i :: 0 <= i < |cells| ==> parsed.value[i] == cells[i];
    assert parsed.value == cells;
    SetColumnSame(r, "date");
  }

  /** Filtering an already filtered table by the same window changes nothing. */
  lemma FilterRowsIdempotent(t: Table, parse: DateParser, start: Date, end: Date, low: real, high: real)
    requires WellFormed(t) && FilterRows(t, parse, start, end, low, high).Success?
    ensures var r := FilterRows(t, parse, start, end, low, high).value;
      WellFormed(r) && FilterRows(r, parse, start, end, low, high) == Success(r)
  {
    var dates := InsightsEngine.ToDatetimeColumn(Column(t, "date"), parse).value;
    var u := SetColumn(t, "date", dates);
    var w := Window(ColumnIndex(u, "date"), ColumnIndex(u, "revenue"), start, end, low, high);
    var r := Table(u.columns, Filter(u.rows, w));
    assert FilterRows(t, parse, start, end, low, high) == Success(r);
    FilterRowsExact(t, parse, start, end, low, high);
    assert ColumnIndex(r, "date") == ColumnIndex(u, "date") && ColumnIndex(r, "revenue") == ColumnIndex(u, "revenue");
    FilterRowsParsed(r, parse, start, end, low, high);
    FilterFilter(u.rows, w, w, w);
  }

  class UserStore {
    var users: map<string, User>
    var files: map<(string, string), Table>
    /** `hash_password` (lines 36-37). */
    const hash: string -> string

    /** The store when the users file holds `{}` (lines 30-31). */
    constructor (hash: string -> string)
      ensures users == map[] && files == map[] && this.hash == hash
    {
      users := map[];
      files := map[];
      this.hash := hash;
    }

    /** `register_user` (lines 46-56). */
    method RegisterUser(username: string, password: string, name: string) returns (ok: bool)
      modifies this
      ensures ok <==> username !in old(users)
      ensures !ok ==> users == old(users)
      ensures ok ==> users == old(users)[username := NewUser(name, password, hash)]
      ensures files == old(files)
    {
      var us := users;
      if username in us {
        return false;
      }
      us := us[username := User(name, hash(password), [])];
      users := us;
      return true;
    }

    /** `verify_user` (lines 58-62). */
    method VerifyUser(username: string, password: string) returns (r: Option<User>)
      ensures r.Some? <==> username in users && users[username].password == hash(password)
      ensures r.Some? ==> r.value == users[username]
    {
      if username in users && users[username].password == hash(password) {
        return Some(users[username]);
      }
      return None;
    }

    /** `save_user_dataset` (lines 64-79); `id` is the fresh uuid and `now` the upload
        time. The file is written before the user is looked up. */
    method SaveUserDataset(username: string, df: Table, filename: string, id: string, now: string)
      returns (r: Result<string, DashboardError>)
      modifies this
      ensures files == old(files)[(username, id) := df]
      ensures username in old(users) ==>
                && r == Success(id)
                && users == old(users)[username := old(users)[username].(datasets := old(users)[username].datasets + [DatasetRef(id, filename, now)])]
      ensures username !in old(users) ==> r == Failure(UnknownUser(username)) && users == old(users)
    {
      files := files[(username, id) := df];
      var us := users;
      if username !in us {
        return Failure(UnknownUser(username));
      }
      var record := us[username];
      us := us[username := record.(datasets := record.datasets + [DatasetRef(id, filename, now)])];
      users := us;
      return Success(id);
    }

    /** `load_user_datasets` (lines 81-92). */
    method LoadUserDatasets(username: string) returns (r: seq<Loaded>)
      ensures username !in users ==> r == []
      ensures username in users ==> r == Loads(username, users[username].datasets, files)
    {
      if username !in users {
        return [];
      }
      var refs := users[username].datasets;
      r := [];
      var i := 0;
      while i < |refs|
        invariant 0 <= i <= |refs|
        invariant r == Loads(username, refs[..i], files)
      {
        assert refs[..i + 1][..i] == refs[..i];
        if (username, refs[i].id) in files {
          r := r + [Loaded(refs[i], files[(username, refs[i].id)])];
        }
        i := i + 1;
      }
      assert refs[..|refs|] == refs;
    }

    /** The signup form (lines 143-152). */
    method SignUp(username: string, name: string, password: string, confirm: string) returns (r: SignupResult)
      modifies this
      ensures r == PasswordsDiffer <==> password != confirm
      ensures r == PasswordTooShort <==> password == confirm && |password| < MinPasswordLength
      ensures r == Created <==> password == confirm && |password| >= MinPasswordLength && username !in old(users)
      ensures r == Created ==> users == old(users)[username := NewUser(name, password, hash)]
      ensures r != Created ==> users == old(users)
      ensures files == old(files)
    {
      if password != confirm {
        return PasswordsDiffer;
      } else if |password| < MinPasswordLength {
        return PasswordTooShort;
      }
      var ok := RegisterUser(username, password, name);
      r := if ok then Created else UsernameTaken;
    }

    /** "Delete Selected" (lines 478-491): `shown` are the datasets listed, `selected`
        the file names picked. Fails, changing nothing, when a dataset is selected for a
        user the users file does not hold. */
    method DeleteSelected(username: string, shown: seq<DatasetRef>, selected: seq<string>)
      returns (r: Result<(), DashboardError>)
      modifies this
      ensures var ids := SelectedIds(shown, selected);
        if username in old(users) then
          && r.Success?
          && users == old(users)[username := old(users)[username].(datasets := Filter(old(users)[username].datasets, Kept(ids)))]
          && files == Without(old(files), username, ids)
        else
          && (r.Failure? <==> ids != {})
          && (r.Failure? ==> r.error == UnknownUser(username))
          && users == old(users) && files == old(files)
    {
      var us := users;
      ghost var before := files;
      ghost var ds := if username in us then us[username].datasets else [];
      if username in us {
        DeleteNone(ds, before, username);
      }
      var i := 0;
      while i < |shown|
        invariant 0 <= i <= |shown|
        invariant users == old(users) && before == old(files)
        invariant username !in users ==> us == users && files == before && SelectedIds(shown[..i], selected) == {}
        invariant username in users ==> us == users[username := users[username].(datasets := Remaining(ds, SelectedIds(shown[..i], selected)))]
        invariant username in users ==> files == Without(before, username, SelectedIds(shown[..i], selected))
      {
        var d := shown[i];
        assert shown[..i + 1][..i] == shown[..i];
        ghost var ids := SelectedIds(shown[..i], selected);
        assert SelectedIds(shown[..i + 1], selected) == if d.filename in selected then ids + {d.id} else ids;
        if d.filename in selected {
          if username !in us {
            SelectedIdsExact(shown, selected, d.id);
            return Failure(UnknownUser(username));
          }
          DeleteStep(ds, ids, d.id);
          UnlinkStep(files, before, username, ids, d.id);
          var record := us[username];
          assert record == users[username].(datasets := Remaining(ds, ids));
          us := us[username := record.(datasets := Filter(record.datasets, Other(d.id)))];
          assert us == users[username := users[username].(datasets := Remaining(ds, ids + {d.id}))];
          if (username, d.id) in files {
            files := files - {(username, d.id)};
          }
        }
        i := i + 1;
      }
      assert shown[..|shown|] == shown;
      RemainingFilter(ds, SelectedIds(shown, selected));
      users := us;
      r := Success(());
    }
  }
}
