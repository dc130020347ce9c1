/** `fast_to_sql` and the `TempTable` context manager: loading a DataFrame's rows into a
    table of the store through a handle, with the replace/append/temp statement sequence. */
module Loader {
  import opened Results
  import opened Frame
  import opened Store

  /** The keyword arguments of `fast_to_sql` after `name`. `ifExists` is compared only
      against "replace"; every other value, "append" included, appends. */
  datatype LoadOptions = LoadOptions(
    index: bool,
    ifExists: string,
    cols: Option<seq<string>>,
    schema: Option<string>,
    temp: bool)

  /** The defaults of `fast_to_sql`, which `TempTable` uses when `**kw` is empty. */
  function DefaultOptions(): LoadOptions {
    LoadOptions(false, "append", None, None, false)
  }

  datatype LoadError = ValueError(message: string)

  const UnknownHandleMessage: string := "Don't know how to handle conn with type:"

  /** How a column label prints in an f-string: an unnamed index level prints as "None". */
  function Label(x: Option<string>): string {
    match x
    case None => "None"
    case Some(s) => s
  }

  /** `f'"{x}"'`. */
  function Quote(x: Option<string>): string {
    "\"" + Label(x) + "\""
  }

  /** The labels of a column list, as labels that are present. */
  function Named(names: seq<string>): (r: seq<Option<string>>)
    ensures |r| == |names|
    ensures forall i :: 0 <= i < |names| ==> r[i] == Some(names[i])
  {
    if names == [] then [] else [Some(names[0])] + Named(names[1..])
  }

  /** The columns to load: the caller's `cols` when given; otherwise the index level names
      followed by the DataFrame's columns when `index` is set, else only the columns. */
  function LoadedColumns(df: DataFrame, index: bool, cols: Option<seq<string>>): (r: seq<Option<string>>)
    ensures cols.Some? ==> |r| == |cols.value| && forall i :: 0 <= i < |r| ==> r[i] == Some(cols.value[i])
    ensures cols.None? ==>
      var k := if index then |df.indexNames| else 0;
      && |r| == k + |df.columns|
      && r[..k] == df.indexNames[..k]
      && forall i :: 0 <= i < |df.columns| ==> r[k + i] == Some(df.columns[i].name)
  {
    match cols
    case Some(cs) => Named(cs)
    case None => if index then df.indexNames + Named(ColumnNames(df)) else Named(ColumnNames(df))
  }

  /** `colnames`: every loaded column, in the same order, wrapped in double quotes. */
  function ColNames(cols: seq<Option<string>>): (r: seq<string>)
    ensures |r| == |cols|
    ensures forall i :: 0 <= i < |cols| ==>
      |r[i]| == |Label(cols[i])| + 2 && r[i][0] == '"' && r[i][|r[i]| - 1] == '"'
      && r[i][1..|r[i]| - 1] == Label(cols[i])
  {
    if cols == [] then []
    else
      var q := Quote(cols[0]);
      assert q[1..|q| - 1] == Label(cols[0]);
      [q] + ColNames(cols[1..])
  }

  /** `full_name`: the table name, qualified by the schema when one is given. */
  function FullName(name: string, schema: Option<string>): string {
    match schema
    case None => name
    case Some(s) => s + "." + name
  }

  /** The position of the last '.' in `s`, if any. */
  function LastDot(s: string): (r: Option<nat>)
    ensures r.None? ==> '.' !in s
    ensures r.Some? ==> r.value < |s| && s[r.value] == '.' && '.' !in s[r.value + 1..]
    decreases |s|
  {
    if s == [] then None
    else if s[|s| - 1] == '.' then Some(|s| - 1)
    else
      var r := LastDot(s[..|s| - 1]);
      assert r.Some? ==> s[..|s| - 1][r.value + 1..] + [s[|s| - 1]] == s[r.value + 1..];
      r
  }

  /** Reads a qualified name back as (schema, name), splitting at the last '.'. */
  function SplitQualified(full: string): (Option<string>, string) {
    match LastDot(full)
    case None => (None, full)
    case Some(k) => (Some(full[..k]), full[k + 1..])
  }

  /** For a table name without a '.', the schema and the name can be read back from
      `full_name`: with and without a schema, the target is the intended table. */
  lemma FullNameRoundTrip(name: string, schema: Option<string>)
    requires '.' !in name
    ensures SplitQualified(FullName(name, schema)) == (schema, name)
  {
    match schema
    case None =>
    case Some(s) =>
      var full := s + "." + name;
      var k := |s|;
      assert full[k] == '.';
      assert full[k + 1..] == name;
      match LastDot(full)
      case None =>
        assert full[k] in full;
      case Some(p) =>
        assert full[..k] == s;
  }

  /** The statements `upload_via_conn` issues. */
  function UploadPlan(fullName: string, colnames: seq<string>, rows: seq<Row>, replace: bool): seq<Statement> {
    (if replace then [DeleteFrom(fullName)] else []) + [CopyFrom(fullName, colnames, rows), Commit]
  }

  /** The statements `fast_to_sql` issues before it looks at the handle's kind. */
  function DdlPlan(fullName: string, replace: bool, temp: bool): seq<Statement> {
    (if replace then [DropTableIfExists(fullName)] else []) + [CreateTable(fullName, temp)]
  }

  lemma RunDdlPlan(t: Tables, fullName: string, replace: bool, temp: bool)
    ensures RunPlan(t, DdlPlan(fullName, replace, temp)) ==
      Success(Created(if replace then t - {fullName} else t, fullName, temp))
  {
    var create := CreateTable(fullName, temp);
    if replace {
      assert DdlPlan(fullName, replace, temp) == [DropTableIfExists(fullName)] + [create];
      RunStep(t, DropTableIfExists(fullName), [create]);
      RunStep(t - {fullName}, create, []);
    } else {
      assert DdlPlan(fullName, replace, temp) == [create] + [];
      RunStep(t, create, []);
    }
  }

  /** The statements `fast_to_sql` issues through a handle of the given kind, in order. */
  function LoadPlan(df: DataFrame, kind: HandleKind, name: string, o: LoadOptions): seq<Statement> {
    var fullName := FullName(name, o.schema);
    var replace := o.ifExists == "replace";
    DdlPlan(fullName, replace, o.temp)
    + (if kind.Unknown? then []
       else UploadPlan(fullName, ColNames(LoadedColumns(df, o.index, o.cols)), df.rows, replace))
  }

  /** The plan is the DDL statements followed, for a known handle, by the upload. */
  lemma LoadPlanParts(df: DataFrame, kind: HandleKind, name: string, o: LoadOptions)
    ensures LoadPlan(df, kind, name, o) ==
      DdlPlan(FullName(name, o.schema), o.ifExists == "replace", o.temp)
      + (if kind.Unknown? then []
         else UploadPlan(FullName(name, o.schema), ColNames(LoadedColumns(df, o.index, o.cols)), df.rows, o.ifExists == "replace"))
  {
  }

  /** Drop, create, delete and copy all target the same `full_name`; the copy fills the
      quoted loaded columns with the DataFrame's rows, and a known handle commits last. */
  lemma {:induction false} LoadPlanTargets(df: DataFrame, kind: HandleKind, name: string, o: LoadOptions)
    ensures forall s :: s in LoadPlan(df, kind, name, o) ==>
      s.Commit? || s.target == FullName(name, o.schema)
    ensures forall s :: s in LoadPlan(df, kind, name, o) && s.CopyFrom? ==>
      s.columns == ColNames(LoadedColumns(df, o.index, o.cols)) && s.rows == df.rows
    ensures !kind.Unknown? ==>
      LoadPlan(df, kind, name, o)[|LoadPlan(df, kind, name, o)| - 1] == Commit
  {
  }

  /** An unknown handle issues the drop (for "replace") and the create, and no copy. */
  lemma UnknownHandleCopiesNothing(df: DataFrame, name: string, o: LoadOptions)
    ensures forall s :: s in LoadPlan(df, Unknown, name, o) ==> !s.CopyFrom? && !s.DeleteFrom?
    ensures o.ifExists == "replace" ==>
      LoadPlan(df, Unknown, name, o) == [DropTableIfExists(FullName(name, o.schema)), CreateTable(FullName(name, o.schema), o.temp)]
    ensures o.ifExists != "replace" ==>
      LoadPlan(df, Unknown, name, o) == [CreateTable(FullName(name, o.schema), o.temp)]
  {
  }

  /** The upload on an existing table: "replace" empties it first, then the rows are
      appended and committed. */
  lemma RunUpload(t: Tables, f: string, cn: seq<string>, rows: seq<Row>, replace: bool)
    requires f in t
    ensures RunPlan(t, UploadPlan(f, cn, rows, replace)) ==
      Success(t[f := Table((if replace then [] else t[f].rows) + rows, t[f].temp)])
  {
    var p2 := [Commit];
    var p1 := [CopyFrom(f, cn, rows)] + p2;
    var t1 := if replace then Truncated(t, f) else t;
    if replace {
      assert UploadPlan(f, cn, rows, replace) == [DeleteFrom(f)] + p1;
      RunStep(t, DeleteFrom(f), p1);
    } else {
      assert UploadPlan(f, cn, rows, replace) == p1;
    }
    var t2 := t1[f := t1[f].(rows := t1[f].rows + rows)];
    RunStep(t1, CopyFrom(f, cn, rows), p2);
    RunStep(t2, Commit, []);
    assert t1[f] == Table(if replace then [] else t[f].rows, t[f].temp);
    assert t2 == t[f := Table((if replace then [] else t[f].rows) + rows, t[f].temp)];
  }

  /** A known handle's load: the DDL statements, then the upload on the table they left. */
  lemma RunKnownLoad(t: Tables, df: DataFrame, kind: HandleKind, name: string, o: LoadOptions)
    requires !kind.Unknown?
    ensures var f := FullName(name, o.schema);
      var replace := o.ifExists == "replace";
      var t1 := Created(if replace then t - {f} else t, f, o.temp);
      RunPlan(t, LoadPlan(df, kind, name, o)) ==
        Success(t1[f := Table((if replace then [] else t1[f].rows) + df.rows, t1[f].temp)])
  {
    var f := FullName(name, o.schema);
    var replace := o.ifExists == "replace";
    var cn := ColNames(LoadedColumns(df, o.index, o.cols));
    LoadPlanParts(df, kind, name, o);
    RunPlanAppend(t, DdlPlan(f, replace, o.temp), UploadPlan(f, cn, df.rows, replace));
    RunDdlPlan(t, f, replace, o.temp);
    RunUpload(Created(if replace then t - {f} else t, f, o.temp), f, cn, df.rows, replace);
  }

  /** With "replace" and a known handle, the table afterwards holds exactly the DataFrame's
      rows, whatever it held before; no other table changes. */
  lemma LoadReplace(t: Tables, df: DataFrame, kind: HandleKind, name: string, o: LoadOptions)
    requires !kind.Unknown? && o.ifExists == "replace"
    ensures RunPlan(t, LoadPlan(df, kind, name, o)) ==
      Success(t[FullName(name, o.schema) := Table(df.rows, o.temp)])
  {
    var f := FullName(name, o.schema);
    RunKnownLoad(t, df, kind, name, o);
    var t1 := Created(t - {f}, f, o.temp);
    assert t1[f] == Table([], o.temp);
    assert [] + df.rows == df.rows;
    assert t1[f := Table(df.rows, o.temp)] == t[f := Table(df.rows, o.temp)];
  }

  /** The table after an append: the existing rows followed by the DataFrame's rows, or a
      new table holding just those rows. */
  function Appended(t: Tables, f: string, rows: seq<Row>, temp: bool): Table {
    if f in t then Table(t[f].rows + rows, t[f].temp) else Table(rows, temp)
  }

  /** With any other `if_exists` and a known handle, an existing table keeps its rows and
      gains the DataFrame's rows after them; a missing one is created (as a temporary table
      when `temp`) and receives them. No other table changes. */
  lemma LoadAppend(t: Tables, df: DataFrame, kind: HandleKind, name: string, o: LoadOptions)
    requires !kind.Unknown? && o.ifExists != "replace"
    ensures RunPlan(t, LoadPlan(df, kind, name, o)) ==
      Success(t[FullName(name, o.schema) := Appended(t, FullName(name, o.schema), df.rows, o.temp)])
  {
    var f := FullName(name, o.schema);
    RunKnownLoad(t, df, kind, name, o);
    var t1 := Created(t, f, o.temp);
    if f !in t {
      assert [] + df.rows == df.rows;
    }
    assert t1[f := Appended(t, f, df.rows, o.temp)] == t[f := Appended(t, f, df.rows, o.temp)];
  }

  /** Appending grows the table by exactly the DataFrame's row count. */
  lemma AppendRowCount(t: Tables, df: DataFrame, kind: HandleKind, name: string, o: LoadOptions)
    requires !kind.Unknown? && o.ifExists != "replace"
    ensures var f := FullName(name, o.schema);
      var after := RunPlan(t, LoadPlan(df, kind, name, o));
      after.Success? && f in after.value &&
      |after.value[f].rows| == (if f in t then |t[f].rows| else 0) + |df.rows|
  {
    LoadAppend(t, df, kind, name, o);
  }

  /** Two appends of the same DataFrame leave two copies of its rows after what was there;
      two replaces leave one copy. */
  lemma LoadTwice(t: Tables, df: DataFrame, kind: HandleKind, name: string, o: LoadOptions)
    requires !kind.Unknown?
    ensures var f := FullName(name, o.schema);
      var plan := LoadPlan(df, kind, name, o);
      var once := RunPlan(t, plan);
      once.Success? && RunPlan(once.value, plan).Success? &&
      f in RunPlan(once.value, plan).value &&
      RunPlan(once.value, plan).value[f].rows ==
        (if o.ifExists == "replace" then df.rows
         else (if f in t then t[f].rows else []) + df.rows + df.rows)
  {
    var f := FullName(name, o.schema);
    if o.ifExists == "replace" {
      LoadReplace(t, df, kind, name, o);
      LoadReplace(t[f := Table(df.rows, o.temp)], df, kind, name, o);
    } else {
      LoadAppend(t, df, kind, name, o);
      var t1 := t[f := Appended(t, f, df.rows, o.temp)];
      LoadAppend(t1, df, kind, name, o);
      if f in t {
        assert t1[f].rows + df.rows == t[f].rows + df.rows + df.rows;
      } else {
        assert t1[f].rows + df.rows == [] + df.rows + df.rows;
      }
    }
  }

  /** With an unknown handle the DDL still takes effect: for "replace" the table is
      recreated empty, otherwise it is created if it was missing; no rows are copied. */
  lemma LoadUnknown(t: Tables, df: DataFrame, name: string, o: LoadOptions)
    ensures var f := FullName(name, o.schema);
      RunPlan(t, LoadPlan(df, Unknown, name, o)) ==
        Success(if o.ifExists != "replace" && f in t then t else t[f := Table([], o.temp)])
  {
    var f := FullName(name, o.schema);
    if o.ifExists == "replace" {
      assert LoadPlan(df, Unknown, name, o) == [DropTableIfExists(f)] + [CreateTable(f, o.temp)];
      RunStep(t, DropTableIfExists(f), [CreateTable(f, o.temp)]);
      RunStep(t - {f}, CreateTable(f, o.temp), []);
      assert (t - {f})[f := Table([], o.temp)] == t[f := Table([], o.temp)];
    } else {
      assert LoadPlan(df, Unknown, name, o) == [CreateTable(f, o.temp)] + [];
      RunStep(t, CreateTable(f, o.temp), []);
    }
  }

  /** `upload_via_conn`: for "replace" delete every row, then copy the rows, then commit.
      It runs only after the table has been created. */
  method UploadViaConn(con: Handle, fullName: string, colnames: seq<string>, rows: seq<Row>, ifExists: string)
    requires fullName in con.tables
    modifies con
    ensures con.log == old(con.log) + UploadPlan(fullName, colnames, rows, ifExists == "replace")
    ensures RunPlan(old(con.tables), UploadPlan(fullName, colnames, rows, ifExists == "replace")) == Success(con.tables)
  {
    ghost var t0 := con.tables;
    ghost var tail := [CopyFrom(fullName, colnames, rows), Commit];
    if ifExists == "replace" {
      var deleted := con.Execute(DeleteFrom(fullName));
      RunStep(t0, DeleteFrom(fullName), tail);
    }
    ghost var t1 := con.tables;
    var copied := con.Execute(CopyFrom(fullName, colnames, rows));
    RunStep(t1, CopyFrom(fullName, colnames, rows), [Commit]);
    ghost var t2 := con.tables;
    var committed := con.Execute(Commit);
    RunStep(t2, Commit, []);
    assert UploadPlan(fullName, colnames, rows, ifExists == "replace") ==
      (if ifExists == "replace" then [DeleteFrom(fullName)] + tail else tail);
  }

  /** The first half of `fast_to_sql`: for "replace" drop the target if it exists, then
      make sure it exists (as a temporary table when `temp`). */
  method PrepareTable(conn: Handle, fullName: string, replace: bool, temp: bool)
    modifies conn
    ensures conn.log == old(conn.log) + DdlPlan(fullName, replace, temp)
    ensures RunPlan(old(conn.tables), DdlPlan(fullName, replace, temp)) == Success(conn.tables)
    ensures fullName in conn.tables
  {
    ghost var t0 := conn.tables;
    if replace {
      var dropped := conn.Execute(DropTableIfExists(fullName));
    }
    // A missing table is created; an existing one is left as it is.
    var created := conn.Execute(CreateTable(fullName, temp));
    RunDdlPlan(t0, fullName, replace, temp);
  }

  /** `fast_to_sql`: prepare the target table, then copy through an engine or a connection;
      any other handle raises `ValueError` after the drop and create have run. */
  method FastToSql(df: DataFrame, conn: Handle, name: string, o: LoadOptions) returns (r: Outcome<LoadError>)
    modifies conn
    ensures conn.log == old(conn.log) + LoadPlan(df, conn.kind, name, o)
    ensures RunPlan(old(conn.tables), LoadPlan(df, conn.kind, name, o)) == Success(conn.tables)
    ensures r.Fail? <==> conn.kind.Unknown?
    ensures r.Fail? ==> r.error == ValueError(UnknownHandleMessage)
  {
    var cols := LoadedColumns(df, o.index, o.cols);
    var colnames := ColNames(cols);
    var fullName := FullName(name, o.schema);
    var replace := o.ifExists == "replace";
    ghost var t0, log0 := conn.tables, conn.log;

    PrepareTable(conn, fullName, replace, o.temp);
    ghost var t1, log1 := conn.tables, conn.log;
    ghost var rest: seq<Statement> := [];

    r := Pass;
    match conn.kind {
      case Engine =>
        // `conn.connect()` opens a connection onto the same store.
        UploadViaConn(conn, fullName, colnames, df.rows, o.ifExists);
        rest := UploadPlan(fullName, colnames, df.rows, replace);
      case Connection =>
        UploadViaConn(conn, fullName, colnames, df.rows, o.ifExists);
        rest := UploadPlan(fullName, colnames, df.rows, replace);
      case Unknown =>
        r := Fail(ValueError(UnknownHandleMessage));
    }
    ghost var ddl := DdlPlan(fullName, replace, o.temp);
    assert conn.log == log1 + rest && log1 == log0 + ddl;
    assert conn.log == log0 + (ddl + rest);
    LoadPlanParts(df, conn.kind, name, o);
    RunPlanAppend(t0, ddl, rest);
  }

  /** The store after `__exit__`: the table is gone when `destroy` is set and emptied
      otherwise (a missing table stays missing); every other table is as it was. */
  function AfterExit(t: Tables, tableName: string, destroy: bool): (r: Tables)
    ensures destroy ==> tableName !in r
    ensures !destroy ==> (tableName in r <==> tableName in t)
    ensures tableName in r ==> r[tableName].rows == []
    ensures forall n :: n != tableName ==> (n in r <==> n in t) && (n in r ==> r[n] == t[n])
  {
    if destroy then Truncated(t, tableName) - {tableName} else Truncated(t, tableName)
  }

  /** Inside the `with` block of a `TempTable` over a known handle and an unqualified
      name, the table holds exactly the DataFrame's rows, under either `if_exists`:
      `__enter__` emptied it before loading. */
  lemma EnterLoadsExactly(t: Tables, df: DataFrame, kind: HandleKind, tableName: string, o: LoadOptions)
    requires !kind.Unknown? && o.schema.None?
    ensures var after := RunPlan(Truncated(t, tableName), LoadPlan(df, kind, tableName, o));
      after.Success? && tableName in after.value && after.value[tableName].rows == df.rows
  {
    var t1 := Truncated(t, tableName);
    if o.ifExists == "replace" {
      LoadReplace(t1, df, kind, tableName, o);
    } else {
      LoadAppend(t1, df, kind, tableName, o);
      assert Appended(t1, tableName, df.rows, o.temp).rows == df.rows by {
        if tableName in t1 {
          assert t1[tableName].rows + df.rows == [] + df.rows;
        }
      }
    }
  }

  /** When the handle is of an unknown kind, `__enter__` raises after its DDL has run, and
      the target table (unqualified name) is left existing and empty. */
  lemma EnterUnknownLeavesEmptyTable(t: Tables, df: DataFrame, tableName: string, o: LoadOptions)
    requires o.schema.None?
    ensures var after := RunPlan(Truncated(t, tableName), LoadPlan(df, Unknown, tableName, o));
      after.Success? && tableName in after.value && after.value[tableName].rows == []
  {
    LoadUnknown(Truncated(t, tableName), df, tableName, o);
  }

  /** A `TempTable` built without keyword arguments loads with `fast_to_sql`'s defaults:
      create the plain-named table if missing (not temporary), copy the DataFrame's columns
      without the index, commit. Inside the `with` block the table holds exactly the rows. */
  lemma DefaultEnter(t: Tables, df: DataFrame, kind: HandleKind, tableName: string)
    requires !kind.Unknown?
    ensures LoadPlan(df, kind, tableName, DefaultOptions()) ==
      [CreateTable(tableName, false), CopyFrom(tableName, ColNames(LoadedColumns(df, false, None)), df.rows), Commit]
    ensures |ColNames(LoadedColumns(df, false, None))| == |df.columns|
    ensures var after := RunPlan(Truncated(t, tableName), LoadPlan(df, kind, tableName, DefaultOptions()));
      && after.Success? && tableName in after.value
      && after.value[tableName] == Table(df.rows, tableName in t && t[tableName].temp)
  {
    var o := DefaultOptions();
    var t1 := Truncated(t, tableName);
    LoadAppend(t1, df, kind, tableName, o);
    if tableName in t1 {
      assert t1[tableName].rows + df.rows == [] + df.rows;
    }
  }

  /** `TempTable`: a context manager that loads `df` into `tableName` on entry and empties
      (or drops, with `destroy`) that table on exit. */
  class TempTable {
    var df: DataFrame
    var tableName: string
    var conn: Handle
    var destroy: bool
    var kw: LoadOptions

    constructor (df: DataFrame, tableName: string, conn: Handle, destroy: bool, kw: LoadOptions)
      ensures this.df == df && this.tableName == tableName && this.conn == conn
      ensures this.destroy == destroy && this.kw == kw
    {
      this.df := df;
      this.tableName := tableName;
      this.conn := conn;
      this.destroy := destroy;
      this.kw := kw;
    }

    /** `_try_empty_table`: issues `TRUNCATE TABLE` and ignores any failure, so a missing
        table leaves the store unchanged. */
    method TryEmptyTable()
      modifies conn
      ensures conn.log == old(conn.log) + [TruncateTable(tableName)]
      ensures conn.tables == Truncated(old(conn.tables), tableName)
    {
      var ignored := conn.Execute(TruncateTable(tableName));
    }

    /** `__enter__`: empty the table, then load `df` into it with the stored keyword
        arguments; an error from the load propagates. */
    method Enter() returns (r: Outcome<LoadError>)
      modifies conn
      ensures conn.log == old(conn.log) + [TruncateTable(tableName)] + LoadPlan(df, conn.kind, tableName, kw)
      ensures RunPlan(Truncated(old(conn.tables), tableName), LoadPlan(df, conn.kind, tableName, kw)) == Success(conn.tables)
      ensures r.Fail? <==> conn.kind.Unknown?
    {
      TryEmptyTable();
      r := FastToSql(df, conn, tableName, kw);
    }

    /** `__exit__`: empty the table and, with `destroy`, drop it. It returns a false value,
        so an exception raised in the `with` body is not suppressed. */
    method Exit() returns (suppress: bool)
      modifies conn
      ensures !suppress
      ensures conn.log == old(conn.log) + [TruncateTable(tableName)]
        + (if destroy then [DropTableIfExists(tableName)] else [])
      ensures conn.tables == AfterExit(old(conn.tables), tableName, destroy)
    {
      TryEmptyTable();
      if destroy {
        var dropped := conn.Execute(DropTableIfExists(tableName));
      }
      suppress := false;
    }
  }
}
