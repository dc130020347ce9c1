/** `_dtype_map` and `draft_sql_ddl_statement`: the text of a PostgreSQL `CREATE TABLE`
    statement, with comment placeholders, for the columns of a DataFrame. */
module Ddl {
  import opened Results
  import opened Frame

  /** The table name written into the statement when the caller gives none. */
  const DefaultTableName: string := "REPLACE_NAME"

  /** `_dtype_map`: the PostgreSQL type for each supported dtype, `None` where the map
      has no entry. The map is closed: exactly the seven named dtypes have an entry. */
  function PgType(dt: DType): (r: Option<string>)
    ensures r.Some? <==> !dt.Other?
  {
    match dt
    case Float64 => Some("numeric(12, 6)")
    case Float32 => Some("numeric(10, 4)")
    case Int64 => Some("INT")
    case Int32 => Some("SMALLINT")
    case DatetimeNaive => Some("TIMESTAMP WITHOUT TIME ZONE")
    case DatetimeUTC => Some("TIMESTAMPTZ")
    case Object => Some("TEXT")
    case Other(_) => None
  }

  /** What `dict(df.dtypes)[c]` gives: the dtype of the one column labelled `c`, or, when
      several columns share the label, a Series of all their dtypes in frame order. */
  datatype DTypeLookup = One(dtype: DType) | Many(dtypes: seq<DType>) {
    function All(): seq<DType> {
      match this
      case One(dt) => [dt]
      case Many(ds) => ds
    }
  }

  /** The dtypes of the columns labelled `c`, in frame order. */
  function DTypesWithLabel(cs: seq<Column>, c: string): seq<DType>
    decreases |cs|
  {
    if cs == [] then []
    else DTypesWithLabel(cs[..|cs| - 1], c) + (if cs[|cs| - 1].name == c then [cs[|cs| - 1].dtype] else [])
  }

  /** `dict(df.dtypes)`: one entry per column label; a label on several columns maps to
      all of their dtypes (see `DTypesAll`). */
  function DTypes(cs: seq<Column>): (m: map<string, DTypeLookup>)
    ensures forall i :: 0 <= i < |cs| ==> cs[i].name in m
    ensures forall c :: c in m && m[c].Many? ==> |m[c].dtypes| >= 2
    decreases |cs|
  {
    if cs == [] then map[]
    else
      var init := cs[..|cs| - 1];
      assert forall i :: 0 <= i < |init| ==> init[i] == cs[i];
      var m := DTypes(init);
      var last := cs[|cs| - 1];
      m[last.name := if last.name in m then Many(m[last.name].All() + [last.dtype]) else One(last.dtype)]
  }

  /** The entry for a label lists the dtypes of exactly the columns carrying it, in frame
      order; a label no column carries has no entry. */
  lemma {:induction false} DTypesAll(cs: seq<Column>, c: string)
    ensures c in DTypes(cs) ==> DTypes(cs)[c].All() == DTypesWithLabel(cs, c)
    ensures c !in DTypes(cs) ==> DTypesWithLabel(cs, c) == []
    decreases |cs|
  {
    if cs != [] {
      DTypesAll(cs[..|cs| - 1], c);
    }
  }

  /** Column `i` is the only column carrying its label. */
  ghost predicate UniqueLabel(cs: seq<Column>, i: int)
    requires 0 <= i < |cs|
  {
    forall j :: 0 <= j < |cs| && j != i ==> cs[j].name != cs[i].name
  }

  lemma {:induction false} SomeWithLabel(cs: seq<Column>, j: int)
    requires 0 <= j < |cs|
    ensures |DTypesWithLabel(cs, cs[j].name)| >= 1
    decreases |cs|
  {
    if j < |cs| - 1 {
      var init := cs[..|cs| - 1];
      assert init[j] == cs[j];
      SomeWithLabel(init, j);
    }
  }

  lemma {:induction false} NoLabelNoDTypes(cs: seq<Column>, c: string)
    requires forall k :: 0 <= k < |cs| ==> cs[k].name != c
    ensures DTypesWithLabel(cs, c) == []
    decreases |cs|
  {
    if cs != [] {
      var init := cs[..|cs| - 1];
      assert forall k :: 0 <= k < |init| ==> init[k] == cs[k];
      NoLabelNoDTypes(init, c);
    }
  }

  /** A column whose label is unique is the only one listed under it; a label shared with
      another column lists at least two dtypes. */
  lemma {:induction false} LabelDTypes(cs: seq<Column>, i: int)
    requires 0 <= i < |cs|
    ensures UniqueLabel(cs, i) ==> DTypesWithLabel(cs, cs[i].name) == [cs[i].dtype]
    ensures !UniqueLabel(cs, i) ==> |DTypesWithLabel(cs, cs[i].name)| >= 2
    decreases |cs|
  {
    var init := cs[..|cs| - 1];
    var last := |cs| - 1;
    var c := cs[i].name;
    if i == last {
      if UniqueLabel(cs, i) {
        forall k | 0 <= k < |init| ensures init[k].name != c {
          assert init[k] == cs[k];
        }
        NoLabelNoDTypes(init, c);
      } else {
        var j :| 0 <= j < |cs| && j != i && cs[j].name == c;
        assert init[j] == cs[j];
        SomeWithLabel(init, j);
      }
    } else {
      assert init[i] == cs[i];
      if cs[last].name == c {
        SomeWithLabel(init, i);
        assert !UniqueLabel(cs, i);
      } else {
        LabelDTypes(init, i);
        if UniqueLabel(cs, i) {
          forall j | 0 <= j < |init| && j != i ensures init[j].name != init[i].name {
            assert init[j] == cs[j];
          }
          assert UniqueLabel(init, i);
        } else {
          var j :| 0 <= j < |cs| && j != i && cs[j].name == c;
          assert init[j] == cs[j];
          assert !UniqueLabel(init, i);
        }
      }
    }
  }

  /** The lookup for column `i` is its own dtype exactly when its label is unique, and a
      Series of dtypes otherwise. */
  lemma LookupByLabel(cs: seq<Column>, i: int)
    requires 0 <= i < |cs|
    ensures UniqueLabel(cs, i) <==> LookupAt(cs, i) == One(cs[i].dtype)
    ensures !UniqueLabel(cs, i) <==> LookupAt(cs, i).Many?
  {
    DTypesAll(cs, cs[i].name);
    LabelDTypes(cs, i);
  }

  /** What the loop's `dtypes[c]` gives for column `i`. */
  function LookupAt(cs: seq<Column>, i: int): DTypeLookup
    requires 0 <= i < |cs|
  {
    DTypes(cs)[cs[i].name]
  }

  /** Column `i` passes the loop's check: its label names one column, and that column's
      dtype has an entry in the map. */
  predicate Supported(cs: seq<Column>, i: int)
    requires 0 <= i < |cs|
  {
    LookupAt(cs, i).One? && PgType(LookupAt(cs, i).dtype).Some?
  }

  /** Column `k` is the first, in frame order, that fails the loop's check. */
  ghost predicate FirstUnsupported(cs: seq<Column>, k: int) {
    && 0 <= k < |cs|
    && !Supported(cs, k)
    && forall j :: 0 <= j < k ==> Supported(cs, j)
  }

  /** The exceptions the loop raises: `ValueError` for a dtype the map lacks, and the
      `TypeError` pandas raises when `dt not in _dtype_map` hashes a Series of dtypes
      (the label is shared by several columns). */
  datatype DdlError = ValueError(dtype: DType, column: string) | TypeError(column: string) {
    function Message(): string {
      match this
      case ValueError(dt, c) => " Don't know how to handle dtype " + DTypeName(dt) + " for column " + c + ". Add it!"
      case TypeError(_) => "'Series' objects are mutable, thus they cannot be hashed"
    }
  }

  /** The error raised at column `k`, given that it fails the loop's check. */
  function ErrorAt(cs: seq<Column>, k: int): DdlError
    requires 0 <= k < |cs|
  {
    match LookupAt(cs, k)
    case Many(_) => TypeError(cs[k].name)
    case One(dt) => ValueError(dt, cs[k].name)
  }

  /** `s` occurs in `text` at position `k`. */
  ghost predicate OccursAt(text: string, s: string, k: int) {
    0 <= k && k + |s| <= |text| && text[k..k + |s|] == s
  }

  /** The `ValueError` message names the dtype and then the column. */
  lemma MessageNamesDTypeAndColumn(dt: DType, column: string)
    ensures OccursAt(ValueError(dt, column).Message(), DTypeName(dt), 32)
    ensures OccursAt(ValueError(dt, column).Message(), column, 32 + |DTypeName(dt)| + 12)
  {
    var a := " Don't know how to handle dtype ";
    var n := DTypeName(dt);
    var b := " for column ";
    var msg := ValueError(dt, column).Message();
    assert |a| == 32 && |b| == 12;
    assert msg == a + n + b + column + ". Add it!";
    assert msg[32..32 + |n|] == n;
    assert msg[32 + |n| + 12..32 + |n| + 12 + |column|] == column;
  }

  function ColumnDef(column: string, pgType: string): string {
    "\"" + column + "\" " + pgType
  }

  function ColumnComment(table: string, column: string): string {
    "COMMENT ON COLUMN " + table + "." + column + " is E'';"
  }

  function TableComment(table: string): string {
    "COMMENT ON TABLE " + table + " is E'';"
  }

  /** The column definitions as they sit in the statement: all but the last end in a comma. */
  function Separated(defs: seq<string>): (r: seq<string>)
    ensures |r| == |defs|
    ensures forall i :: 0 <= i < |defs| ==> r[i] == defs[i] + (if i < |defs| - 1 then "," else "")
  {
    seq(|defs|, i requires 0 <= i < |defs| => if i < |defs| - 1 then defs[i] + "," else defs[i])
  }

  /** The drafted statement: the table name and the two lists the loop builds. */
  datatype DdlStatement = DdlStatement(tableName: string, columnDefs: seq<string>, columnComments: seq<string>) {
    /** The statement's non-blank lines, in order. */
    function Lines(): seq<string> {
      ["CREATE TABLE " + tableName + " ("]
      + Separated(columnDefs)
      + [");", TableComment(tableName)]
      + columnComments
    }
  }

  /** `d` describes the columns `cs` under the table name `t`: one definition with the
      mapped type and one comment per column, in frame order. */
  ghost predicate Drafted(d: DdlStatement, t: string, cs: seq<Column>) {
    && d.tableName == t
    && |d.columnDefs| == |cs|
    && |d.columnComments| == |cs|
    && forall i :: 0 <= i < |cs| ==>
         && Supported(cs, i)
         && d.columnDefs[i] == ColumnDef(cs[i].name, PgType(LookupAt(cs, i).dtype).value)
         && d.columnComments[i] == ColumnComment(t, cs[i].name)
  }

  /** `draft_sql_ddl_statement`: walks the columns in order, failing at the first one whose
      label is shared or whose dtype is not in the map; otherwise drafts one definition and
      one comment per column. */
  method DraftSqlDdlStatement(df: DataFrame, tableName: Option<string>) returns (r: Result<DdlStatement, DdlError>)
    ensures r.Success? <==> forall i :: 0 <= i < |df.columns| ==> Supported(df.columns, i)
    ensures r.Success? ==>
      Drafted(r.value, if tableName.None? then DefaultTableName else tableName.value, df.columns)
    ensures r.Failure? ==>
      exists k :: FirstUnsupported(df.columns, k) && r.error == ErrorAt(df.columns, k)
  {
    var t := if tableName.None? then DefaultTableName else tableName.value;
    var cols: seq<string> := [];
    var colComments: seq<string> := [];
    var dtypes := DTypes(df.columns);
    var i := 0;
    while i < |df.columns|
      invariant 0 <= i <= |df.columns|
      invariant |cols| == i && |colComments| == i
      invariant forall j :: 0 <= j < i ==>
        && Supported(df.columns, j)
        && cols[j] == ColumnDef(df.columns[j].name, PgType(LookupAt(df.columns, j).dtype).value)
        && colComments[j] == ColumnComment(t, df.columns[j].name)
    {
      var c := df.columns[i].name;
      var lookup := dtypes[c];
      assert lookup == LookupAt(df.columns, i);
      if lookup.Many? {
        // `dt not in _dtype_map` cannot hash a Series.
        assert FirstUnsupported(df.columns, i);
        return Failure(TypeError(c));
      }
      var dt := lookup.dtype;
      if PgType(dt).None? {
        assert FirstUnsupported(df.columns, i);
        return Failure(ValueError(dt, c));
      }
      cols := cols + [ColumnDef(c, PgType(dt).value)];
      colComments := colComments + [ColumnComment(t, c)];
      i := i + 1;
    }
    return Success(DdlStatement(t, cols, colComments));
  }

  /** The number of lines that start with `p`. */
  function CountWithPrefix(lines: seq<string>, p: string): nat {
    if lines == [] then 0
    else (if p <= lines[0] then 1 else 0) + CountWithPrefix(lines[1..], p)
  }

  lemma {:induction false} CountAppend(a: seq<string>, b: seq<string>, p: string)
    ensures CountWithPrefix(a + b, p) == CountWithPrefix(a, p) + CountWithPrefix(b, p)
    decreases |a|
  {
    if a == [] {
      assert a + b == b;
    } else {
      assert (a + b)[0] == a[0];
      assert (a + b)[1..] == a[1..] + b;
      CountAppend(a[1..], b, p);
    }
  }

  lemma {:induction false} CountNone(lines: seq<string>, p: string)
    requires forall i :: 0 <= i < |lines| ==> !(p <= lines[i])
    ensures CountWithPrefix(lines, p) == 0
    decreases |lines|
  {
    if lines != [] {
      CountNone(lines[1..], p);
    }
  }

  lemma {:induction false} CountAll(lines: seq<string>, p: string)
    requires forall i :: 0 <= i < |lines| ==> p <= lines[i]
    ensures CountWithPrefix(lines, p) == |lines|
    decreases |lines|
  {
    if lines != [] {
      CountAll(lines[1..], p);
    }
  }

  const TablePrefix: string := "COMMENT ON TABLE "
  const ColumnPrefix: string := "COMMENT ON COLUMN "

  lemma PrefixOfConcat(p: string, x: string)
    ensures p <= p + x
  {
    assert (p + x)[..|p|] == p;
  }

  /** A string that differs from `p` at a position inside both does not start with `p`. */
  lemma NotPrefixAt(p: string, s: string, k: nat)
    requires k < |p| && k < |s| && p[k] != s[k]
    ensures !(p <= s)
  {
  }

  lemma ColumnDefStart(column: string, pgType: string)
    ensures |ColumnDef(column, pgType)| > 0 && ColumnDef(column, pgType)[0] == '"'
  {
  }

  lemma ColumnCommentStart(table: string, column: string)
    ensures ColumnPrefix <= ColumnComment(table, column)
    ensures !(TablePrefix <= ColumnComment(table, column))
    ensures !("\"" <= ColumnComment(table, column))
  {
    var rest := table + "." + column + " is E'';";
    assert ColumnComment(table, column) == ColumnPrefix + rest;
    PrefixOfConcat(ColumnPrefix, rest);
    assert (ColumnPrefix + rest)[11] == 'C' && (ColumnPrefix + rest)[0] == 'C';
    NotPrefixAt(TablePrefix, ColumnComment(table, column), 11);
    NotPrefixAt("\"", ColumnComment(table, column), 0);
  }

  lemma TableCommentStart(table: string)
    ensures TablePrefix <= TableComment(table)
    ensures !(ColumnPrefix <= TableComment(table))
    ensures !("\"" <= TableComment(table))
  {
    var rest := table + " is E'';";
    assert TableComment(table) == TablePrefix + rest;
    PrefixOfConcat(TablePrefix, rest);
    assert (TablePrefix + rest)[11] == 'T' && (TablePrefix + rest)[0] == 'C';
    NotPrefixAt(ColumnPrefix, TableComment(table), 11);
    NotPrefixAt("\"", TableComment(table), 0);
  }

  lemma HeaderStart(table: string)
    ensures !(ColumnPrefix <= "CREATE TABLE " + table + " (")
    ensures !(TablePrefix <= "CREATE TABLE " + table + " (")
    ensures !("\"" <= "CREATE TABLE " + table + " (")
  {
    var h := "CREATE TABLE " + table + " (";
    assert h[0] == 'C' && h[1] == 'R';
    NotPrefixAt(ColumnPrefix, h, 1);
    NotPrefixAt(TablePrefix, h, 1);
    NotPrefixAt("\"", h, 0);
  }

  lemma CloserStart()
    ensures !(ColumnPrefix <= ");") && !(TablePrefix <= ");") && !("\"" <= ");")
  {
    NotPrefixAt(ColumnPrefix, ");", 0);
    NotPrefixAt(TablePrefix, ");", 0);
    NotPrefixAt("\"", ");", 0);
  }

  /** Counting over the four parts of a statement's lines. */
  lemma CountParts(d: DdlStatement, p: string)
    ensures CountWithPrefix(d.Lines(), p) ==
      CountWithPrefix(["CREATE TABLE " + d.tableName + " ("], p)
      + CountWithPrefix(Separated(d.columnDefs), p)
      + CountWithPrefix([");", TableComment(d.tableName)], p)
      + CountWithPrefix(d.columnComments, p)
  {
    var head := ["CREATE TABLE " + d.tableName + " ("];
    var defs := Separated(d.columnDefs);
    var mid := [");", TableComment(d.tableName)];
    CountAppend(head + defs + mid, d.columnComments, p);
    CountAppend(head + defs, mid, p);
    CountAppend(head, defs, p);
  }

  /** A line that opens with a double quote. */
  lemma QuotedStart(s: string)
    requires |s| > 0 && s[0] == '"'
    ensures "\"" <= s && !(TablePrefix <= s) && !(ColumnPrefix <= s)
  {
    assert s[..1] == "\"";
    NotPrefixAt(TablePrefix, s, 0);
    NotPrefixAt(ColumnPrefix, s, 0);
  }

  /** Every definition line of a drafted statement opens with a double quote, and every
      column comment line with `COMMENT ON COLUMN `. */
  lemma DraftedLineStarts(d: DdlStatement, t: string, cs: seq<Column>)
    requires Drafted(d, t, cs)
    ensures forall i :: 0 <= i < |cs| ==>
      var l := Separated(d.columnDefs)[i]; "\"" <= l && !(TablePrefix <= l) && !(ColumnPrefix <= l)
    ensures forall i :: 0 <= i < |cs| ==>
      var l := d.columnComments[i]; ColumnPrefix <= l && !(TablePrefix <= l) && !("\"" <= l)
  {
    var defs := Separated(d.columnDefs);
    forall i | 0 <= i < |cs|
      ensures "\"" <= defs[i] && !(TablePrefix <= defs[i]) && !(ColumnPrefix <= defs[i])
    {
      var pg := PgType(LookupAt(cs, i).dtype).value;
      ColumnDefStart(cs[i].name, pg);
      assert defs[i][0] == d.columnDefs[i][0];
      QuotedStart(defs[i]);
    }
    forall i | 0 <= i < |cs|
      ensures ColumnPrefix <= d.columnComments[i] && !(TablePrefix <= d.columnComments[i])
      ensures !("\"" <= d.columnComments[i])
    {
      ColumnCommentStart(t, cs[i].name);
    }
  }

  /** The `CREATE TABLE` header comes first, then one definition per column in frame order,
      then the closing parenthesis and the table comment. */
  lemma DraftedLinesOrder(d: DdlStatement, t: string, cs: seq<Column>)
    requires d.tableName == t && |d.columnDefs| == |cs| && |d.columnComments| == |cs|
    ensures |d.Lines()| == 3 + 2 * |cs|
    ensures d.Lines()[0] == "CREATE TABLE " + t + " ("
    ensures forall i :: 0 <= i < |cs| ==> d.columnDefs[i] <= d.Lines()[1 + i]
    ensures d.Lines()[1 + |cs|] == ");" && d.Lines()[2 + |cs|] == TableComment(t)
    ensures d.Lines()[3 + |cs|..] == d.columnComments
  {
    var n := |cs|;
    var head := ["CREATE TABLE " + t + " ("];
    var defs := Separated(d.columnDefs);
    var rest := [");", TableComment(t)] + d.columnComments;
    var lines := d.Lines();
    assert lines == head + (defs + rest);
    assert |defs| == n;
    forall i | 0 <= i < n ensures d.columnDefs[i] <= lines[1 + i] {
      assert lines[1 + i] == (defs + rest)[i] == defs[i];
      PrefixOfConcat(d.columnDefs[i], if i < n - 1 then "," else "");
    }
    assert lines[1 + n] == (defs + rest)[n] == rest[0];
    assert lines[2 + n] == (defs + rest)[n + 1] == rest[1];
    assert lines[3 + n..] == d.columnComments by {
      assert lines == (head + defs + [");", TableComment(t)]) + d.columnComments;
      assert |head + defs + [");", TableComment(t)]| == 3 + n;
    }
  }

  /** The definition lines are exactly the lines that open with a double quote: one per column. */
  lemma DraftedDefinitionCount(d: DdlStatement, t: string, cs: seq<Column>)
    requires Drafted(d, t, cs)
    ensures CountWithPrefix(d.Lines(), "\"") == |cs|
  {
    DraftedLineStarts(d, t, cs);
    CountParts(d, "\"");
    CountAll(Separated(d.columnDefs), "\"");
    CountNone(d.columnComments, "\"");
    TableCommentStart(t);
    HeaderStart(t);
    CloserStart();
    CountNone([");", TableComment(t)], "\"");
    CountNone(["CREATE TABLE " + t + " ("], "\"");
  }

  /** Exactly one `COMMENT ON TABLE` line. */
  lemma DraftedTableCommentCount(d: DdlStatement, t: string, cs: seq<Column>)
    requires Drafted(d, t, cs)
    ensures CountWithPrefix(d.Lines(), TablePrefix) == 1
  {
    DraftedLineStarts(d, t, cs);
    CountParts(d, TablePrefix);
    CountNone(Separated(d.columnDefs), TablePrefix);
    CountNone(d.columnComments, TablePrefix);
    HeaderStart(t);
    CloserStart();
    TableCommentStart(t);
    CountNone(["CREATE TABLE " + t + " ("], TablePrefix);
    var mid := [");", TableComment(t)];
    assert mid[1..][0] == TableComment(t);
    assert mid[1..][1..] == [];
  }

  /** One `COMMENT ON COLUMN` line per column. */
  lemma DraftedColumnCommentCount(d: DdlStatement, t: string, cs: seq<Column>)
    requires Drafted(d, t, cs)
    ensures CountWithPrefix(d.Lines(), ColumnPrefix) == |cs|
  {
    DraftedLineStarts(d, t, cs);
    CountParts(d, ColumnPrefix);
    CountNone(Separated(d.columnDefs), ColumnPrefix);
    CountAll(d.columnComments, ColumnPrefix);
    HeaderStart(t);
    CloserStart();
    TableCommentStart(t);
    CountNone(["CREATE TABLE " + t + " ("], ColumnPrefix);
    var mid := [");", TableComment(t)];
    CountNone(mid, ColumnPrefix);
  }

  /** With distinct column labels, every column is looked up with its own dtype. */
  lemma DistinctLabelsOwnDType(cs: seq<Column>, i: int)
    requires forall j, k :: 0 <= j < k < |cs| ==> cs[j].name != cs[k].name
    requires 0 <= i < |cs|
    ensures LookupAt(cs, i) == One(cs[i].dtype)
  {
    assert UniqueLabel(cs, i);
    LookupByLabel(cs, i);
  }

  /** A label shared by two columns makes the lookup a Series, so both columns fail the
      loop's check and no statement can be drafted for the frame. */
  lemma RepeatedLabelFails(cs: seq<Column>, i: int, k: int)
    requires 0 <= i < |cs| && 0 <= k < |cs| && i != k && cs[i].name == cs[k].name
    ensures LookupAt(cs, i).Many? && !Supported(cs, i)
  {
    LookupByLabel(cs, i);
  }
}
