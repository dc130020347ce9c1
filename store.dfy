/** The relational store the loader talks to, reduced to what the loader's statements
    do to it: tables by (qualified) name, each holding its rows and whether it was
    created as a temporary table. */
module Store {
  import opened Results
  import opened Frame

  datatype Table = Table(rows: seq<Row>, temp: bool)

  type Tables = map<string, Table>

  /** The statements the loader issues, each against one target table. */
  datatype Statement =
    | DropTableIfExists(target: string)
    /** `CREATE TEMP TABLE` when `temp`, otherwise `CREATE TABLE IF NOT EXISTS`. */
    | CreateTable(target: string, temp: bool)
    | DeleteFrom(target: string)
    | TruncateTable(target: string)
    /** The bulk copy: `rows` are appended to `target`, filling `columns`. */
    | CopyFrom(target: string, columns: seq<string>, rows: seq<Row>)
    | Commit

  datatype SqlError = UndefinedTable(name: string)

  /** The store after every row of table `n` is removed; a missing table is left missing. */
  function Truncated(t: Tables, n: string): (r: Tables)
    ensures n !in t ==> r == t
    ensures n in t ==> n in r && r[n].rows == [] && r[n].temp == t[n].temp
    ensures forall m :: m != n ==> (m in r <==> m in t) && (m in r ==> r[m] == t[m])
  {
    if n in t then t[n := t[n].(rows := [])] else t
  }

  /** The store after `CREATE TABLE IF NOT EXISTS f`: a missing table is created empty,
      an existing one is left as it is. */
  function Created(t: Tables, f: string, temp: bool): (r: Tables)
    ensures f in r && (f in t ==> r[f] == t[f]) && (f !in t ==> r[f] == Table([], temp))
    ensures forall m :: m != f ==> (m in r <==> m in t) && (m in r ==> r[m] == t[m])
  {
    if f in t then t else t[f := Table([], temp)]
  }

  /** The effect of one statement on the store, or the error it raises. */
  function Apply(t: Tables, s: Statement): Result<Tables, SqlError> {
    match s
    case DropTableIfExists(n) => Success(t - {n})
    case CreateTable(n, temp) => Success(Created(t, n, temp))
    case DeleteFrom(n) => if n in t then Success(Truncated(t, n)) else Failure(UndefinedTable(n))
    case TruncateTable(n) => if n in t then Success(Truncated(t, n)) else Failure(UndefinedTable(n))
    case CopyFrom(n, _, rows) =>
      if n in t then Success(t[n := t[n].(rows := t[n].rows + rows)]) else Failure(UndefinedTable(n))
    case Commit => Success(t)
  }

  /** Statements run in order; the first error stops the run. */
  function RunPlan(t: Tables, plan: seq<Statement>): Result<Tables, SqlError>
    decreases |plan|
  {
    if plan == [] then Success(t)
    else match Apply(t, plan[0])
      case Success(t') => RunPlan(t', plan[1..])
      case Failure(e) => Failure(e)
  }

  /** Continues a run with more statements, passing an earlier error through. */
  function Then(r: Result<Tables, SqlError>, plan: seq<Statement>): Result<Tables, SqlError> {
    match r
    case Success(t) => RunPlan(t, plan)
    case Failure(e) => Failure(e)
  }

  /** Running two plans one after the other is running their concatenation. */
  lemma {:induction false} RunPlanAppend(t: Tables, a: seq<Statement>, b: seq<Statement>)
    ensures RunPlan(t, a + b) == Then(RunPlan(t, a), b)
    decreases |a|
  {
    if a == [] {
      assert a + b == b;
    } else {
      assert (a + b)[0] == a[0];
      assert (a + b)[1..] == a[1..] + b;
      match Apply(t, a[0])
      case Success(t') => RunPlanAppend(t', a[1..], b);
      case Failure(e) =>
    }
  }

  /** One successful statement, then the rest of the plan. */
  lemma RunStep(t: Tables, s: Statement, rest: seq<Statement>)
    requires Apply(t, s).Success?
    ensures RunPlan(t, [s] + rest) == RunPlan(Apply(t, s).value, rest)
  {
    assert ([s] + rest)[0] == s;
    assert ([s] + rest)[1..] == rest;
  }

  /** How the caller's `conn` object was made. */
  datatype HandleKind = Engine | Connection | Unknown

  /** The `conn` object handed to the loader: its kind, and the store that its
      `execute` changes, with the statements issued through it so far. */
  class Handle {
    const kind: HandleKind
    var tables: Tables
    var log: seq<Statement>

    constructor (kind: HandleKind, tables: Tables)
      ensures this.kind == kind && this.tables == tables && log == []
    {
      this.kind := kind;
      this.tables := tables;
      log := [];
    }

    /** Issues one statement; on an error the store is unchanged and the error is returned. */
    method Execute(s: Statement) returns (r: Outcome<SqlError>)
      modifies this
      ensures log == old(log) + [s]
      ensures Apply(old(tables), s).Success? ==> r == Pass && tables == Apply(old(tables), s).value
      ensures Apply(old(tables), s).Failure? ==> r == Fail(Apply(old(tables), s).error) && tables == old(tables)
    {
      log := log + [s];
      match Apply(tables, s)
      case Success(t) =>
        tables := t;
        r := Pass;
      case Failure(e) =>
        r := Fail(e);
    }
  }
}
