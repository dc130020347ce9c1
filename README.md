# Bulk loader of can-scrapers, modelled in Dafny

This project models the bulk-load utility of `can_tools/scrapers/db_util.py`: the
function that copies a DataFrame into a PostgreSQL table (`fast_to_sql`), the
`TempTable` context manager built on it, and the `CREATE TABLE` drafting helper
(`draft_sql_ddl_statement` with its dtype map `_dtype_map`).

Files and modules:

- `results.dfy` (`Results`): `Option`, `Result` and `Outcome` values. Python's
  exceptions become `Failure`/`Fail` values.
- `frame.dfy` (`Frame`): the parts of a DataFrame the loader reads. These are the index
  level names (an unnamed level is `None`), the labelled columns with their dtypes, and
  the rows. Each row is treated as one opaque value.
- `store.dfy` (`Store`): the database, as a map from table name to `{rows, temp}`.
  - Each statement the loader issues is a `Statement` value.
  - `Apply` gives one statement's effect. `RunPlan` runs a list of statements in order
    and stops at the first error.
  - The caller's `conn` object is the class `Handle`. It has a kind (`Engine`,
    `Connection` or `Unknown`), the tables it changes, and the log of statements
    issued through it.
- `ddl.dfy` (`Ddl`): `_dtype_map` as `PgType`, `dict(df.dtypes)` as `DTypes`, and
  `draft_sql_ddl_statement` as a loop that builds the definition and comment lists.
  The drafted text is modelled as its non-blank lines, `DdlStatement.Lines()`.
- `loader.dfy` (`Loader`): `fast_to_sql`, `upload_via_conn` and the class `TempTable`.
  - `LoadPlan` is the exact sequence of statements `fast_to_sql` issues.
  - The methods are proved to issue exactly that sequence, and to leave the store as
    running it would.
  - Lemmas state what the sequence does under "replace", under any other `if_exists`,
    and with an unknown handle.

Behaviour of the code worth knowing:

- `if_exists` is tested only against `"replace"`. Every other value appends,
  including `"fail"` and typos.
- The only errors the code raises itself are two `ValueError`s: one for an unknown
  handle, one for a dtype missing from the map. Exceptions from the driver pass
  through unchanged, and nothing rolls back.
- `fast_to_sql` never calls `draft_sql_ddl_statement`. The table it creates takes its
  column types from `pandas.io.sql.get_schema`, so an unsupported dtype does not stop a load.
- When several columns share a label, `dict(df.dtypes)[c]` is a Series of their dtypes,
  and the test `dt not in _dtype_map` raises `TypeError` because a Series cannot be
  hashed. `draft_sql_ddl_statement` therefore fails at the first such column
  (`RepeatedLabelFails`).
- When `__enter__` raises (an unknown handle), Python does not run `__exit__`. The
  table that the DDL created is then left in place, empty, even with `destroy` set
  (`EnterUnknownLeavesEmptyTable`).

## Model

| member | source | states |
|---|---|---|
| `Ddl.PgType` | can_tools/scrapers/db_util.py:125-134 | The dtype map is closed: exactly the seven listed dtypes have a PostgreSQL type, and no other dtype has one |
| `Ddl.DTypes` | can_tools/scrapers/db_util.py:160 | `dict(df.dtypes)` has an entry for every column label; an entry for a shared label is a Series of at least two dtypes |
| `Ddl.DTypesAll` | can_tools/scrapers/db_util.py:160 | The entry for a label lists the dtypes of exactly the columns carrying it, in frame order; a label no column carries has no entry |
| `Ddl.LookupByLabel` | can_tools/scrapers/db_util.py:160-162 | `dtypes[c]` is the column's own dtype exactly when its label is unique, and a Series exactly when the label is shared |
| `Ddl.DistinctLabelsOwnDType` | can_tools/scrapers/db_util.py:160-162 | With distinct labels, each column is looked up with its own dtype |
| `Ddl.RepeatedLabelFails` | can_tools/scrapers/db_util.py:160-163 | A label shared by two columns makes `dt` a Series, so both columns fail the membership test and the draft cannot succeed |
| `Ddl.DraftSqlDdlStatement` | can_tools/scrapers/db_util.py:137-181 | Succeeds iff every column's label is unique and its dtype is in the map. Otherwise it fails at the first failing column in frame order: with a TypeError when the label is shared, and with a ValueError naming the dtype and column otherwise. On success: `REPLACE_NAME` when no name is given, and per column in order a `"c" <mapped type>` definition and a `COMMENT ON COLUMN` line |
| `Ddl.MessageNamesDTypeAndColumn` | can_tools/scrapers/db_util.py:164 | The ValueError's message carries the dtype's name at offset 32 and the column label 12 characters after it |
| `Ddl.DraftedLinesOrder` | can_tools/scrapers/db_util.py:169-181 | The lines are the `CREATE TABLE` header, then the column definitions in frame order, then `);` and the table comment, then the column comments (3 + 2n lines) |
| `Ddl.DraftedDefinitionCount` | can_tools/scrapers/db_util.py:166-174 | Exactly one line per column opens with a double quote (the column definitions) |
| `Ddl.DraftedTableCommentCount` | can_tools/scrapers/db_util.py:177 | Exactly one line is a `COMMENT ON TABLE` |
| `Ddl.DraftedColumnCommentCount` | can_tools/scrapers/db_util.py:167-179 | Exactly one `COMMENT ON COLUMN` line per column |
| `Loader.LoadedColumns` | can_tools/scrapers/db_util.py:26-27 | Given `cols` is used as is. Otherwise, with `index`, the index names come first and then the DataFrame's columns in order; without it, only the columns |
| `Loader.ColNames` | can_tools/scrapers/db_util.py:28 | `colnames` has the same length and order as the loaded columns. Each name is the column's label wrapped in double quotes; an unnamed index level becomes "None" |
| `Loader.FullNameRoundTrip` | can_tools/scrapers/db_util.py:29 | For a name without a dot, splitting `full_name` at its last dot gives back the schema (or none) and the name |
| `Store.Created` | can_tools/scrapers/db_util.py:53-59 | The create statement leaves the target present: an existing table as it was, a missing one new and empty with the requested temp flag. No other table changes |
| `Loader.RunDdlPlan` | can_tools/scrapers/db_util.py:50-61 | Drop (for "replace") then create-if-missing leaves the target present: a new empty table, or the old one as it was |
| `Loader.LoadPlanTargets` | can_tools/scrapers/db_util.py:29-61 | Every statement except the commit targets `full_name`. The copy fills `colnames` with the DataFrame's rows. A known handle commits last |
| `Loader.UnknownHandleCopiesNothing` | can_tools/scrapers/db_util.py:51-70 | An unknown handle issues only the drop and the create for "replace", and only the create otherwise: no delete and no copy |
| `Loader.RunUpload` | can_tools/scrapers/db_util.py:39-47 | On an existing table the upload empties it for "replace", then appends the rows after what is left and commits; the temp flag and every other table are kept |
| `Loader.RunKnownLoad` | can_tools/scrapers/db_util.py:49-66 | With a known handle, the load is the DDL's effect followed by the upload on the table the DDL left |
| `Loader.LoadReplace` | can_tools/scrapers/db_util.py:45-52 | With "replace" and a known handle, the table afterwards holds exactly the DataFrame's rows, whatever it held before, and no other table changes |
| `Loader.LoadAppend` | can_tools/scrapers/db_util.py:47-61 | With any other `if_exists` and a known handle, an existing table keeps its rows and its temp flag, and gains the DataFrame's rows after them. A missing table is created (temporary when `temp`) holding just those rows. No other table changes |
| `Loader.AppendRowCount` | can_tools/scrapers/db_util.py:47-61 | An append grows the table's row count by exactly `len(df)` |
| `Loader.LoadTwice` | can_tools/scrapers/db_util.py:10-70 | Two appends leave two copies of the rows after what was there. Two replaces leave exactly one copy |
| `Loader.LoadUnknown` | can_tools/scrapers/db_util.py:51-70 | With an unknown handle the DDL still takes effect. For "replace" the table is recreated empty; otherwise it is created if missing and left untouched if present |
| `Loader.UploadViaConn` | can_tools/scrapers/db_util.py:32-48 | Issues DELETE (for "replace"), then the copy, then the commit, and leaves the store as running them would |
| `Loader.PrepareTable` | can_tools/scrapers/db_util.py:50-61 | Issues DROP TABLE IF EXISTS (for "replace") and then the create statement, and the target exists afterwards |
| `Loader.FastToSql` | can_tools/scrapers/db_util.py:10-70 | Issues exactly `LoadPlan`'s statements and leaves the store as running them would. Raises ValueError exactly when the handle is neither an engine nor a connection |
| `Loader.EnterLoadsExactly` | can_tools/scrapers/db_util.py:114-117 | After `__enter__` with a known handle and an unqualified name, the table holds exactly the DataFrame's rows, under either `if_exists` |
| `Loader.EnterUnknownLeavesEmptyTable` | can_tools/scrapers/db_util.py:114-117 | After `__enter__` raises for an unknown handle, the table exists and is empty |
| `Loader.DefaultEnter` | can_tools/scrapers/db_util.py:14-18 | A `TempTable` without keyword arguments (lines 114-117) creates the plain-named table if missing, not temporary, copies the columns without the index and commits; inside the block the table holds exactly the DataFrame's rows |
| `Loader.AfterExit` | can_tools/scrapers/db_util.py:119-122 | After exit the table is absent with `destroy` and empty (or still missing) without it. Every other table is unchanged |
| `Loader.TempTable.constructor` | can_tools/scrapers/db_util.py:79-106 | Stores `df`, `table_name`, `conn`, `destroy` and `kw` |
| `Loader.TempTable.TryEmptyTable` | can_tools/scrapers/db_util.py:108-112 | Issues TRUNCATE and never raises. A present table is emptied, a missing one leaves the store unchanged, and no other table changes |
| `Loader.TempTable.Enter` | can_tools/scrapers/db_util.py:114-117 | Empties the table, then issues exactly `fast_to_sql`'s statements with the stored keyword arguments. Fails exactly when the handle kind is unknown |
| `Loader.TempTable.Exit` | can_tools/scrapers/db_util.py:119-122 | Truncates, then drops when `destroy` is set, leaving the store as `AfterExit` says. Returns false, so an exception from the body is not suppressed |

## Left out

- Serialising the DataFrame: `to_csv` into a tab-separated buffer and psycopg2's
  `copy_from` encoding are not modelled, and neither is the empty-string/NULL
  ambiguity of `null=""`. The copy appends the DataFrame's rows as opaque values, and
  the rows are not projected onto `cols`.
- `index=True` without `cols`: `cols` then holds the index names as well, and
  `to_csv(columns=cols)` rejects them after the DDL has run. The model's copy does not
  fail there, so `LoadReplace`, `LoadAppend` and `EnterLoadsExactly` describe that case
  only for the abstract copy.
- The text of `pandas.io.sql.get_schema` and its `.replace` rewriting: the create step
  is modelled only by its effect, create-if-missing, marked temporary when `temp`.
- PostgreSQL semantics beyond that effect:
  - session scoping of temporary tables;
  - `CREATE TEMP TABLE` failing when the table already exists (modelled as leaving it);
  - `numeric(12, 6)` rounding;
  - transactions and rollback;
  - identifier validity and SQL injection (names are interpolated unquoted).
- `conn.connect()` on an engine opens a second connection. The model uses the same
  store for both.
- Exceptions that the library calls can raise are not modelled. One example is
  `to_csv` rejecting an unknown column in `cols`. In this store, DROP IF EXISTS and
  CREATE cannot fail, and DELETE and the copy run only after the create.
- `Loader.UploadViaConn`: requires the target table to exist. Its only caller runs it
  right after the create statement.
- A `schema` in `TempTable`'s `kw`: the names are kept as plain strings. Nothing is
  claimed about the case where `TempTable` truncates and drops the unqualified name
  while the load targets `schema.name`.
- `__exit__`'s exception arguments are not used by the code and are not modelled.
- Whitespace of the drafted statement (the `textwrap.dedent` layout and its blank
  lines): the model keeps the non-blank lines. Zero columns gives no definition line.
- `can_tools/scrapers/official/FL/fl_hospitals.py`, the scraper that produces the
  DataFrames, is not part of this model. It is browser automation and pandas
  cleaning.
