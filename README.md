# PyAlchemyAdmin core, modelled in Dafny

PyAlchemyAdmin is a thin database-access layer over SQLAlchemy. A manager is
configured with a dialect (`postgresql`, `mysql`, `oracle`, `mssql`, `sqlite`),
an optional driver ("engine") and credentials; it checks the pair, builds the
connection URL, and then offers `create`, `bulk_create`, `retrieve`, `update`,
`delete` and `exists` on mapped tables. Before any query is built, every
operation checks that the columns it names are declared columns of the table.

This project models that core:

- `connection.dfy` (module `Connection`): the dialect and engine tables, the
  argument checks of `DBManager.__init__` and `_construct_database_url`,
  including the sqlite special case and its `:memory:` sentinel.
- `dialect_db_manager.dfy` (module `DialectDbManager`): the per-dialect
  managers, their fixed dialect strings and default ports, port defaulting,
  and the `SQLiteDBManager` constructor.
- `columns.dfy` (module `Columns`): `_has_column` and
  `_validate_column_existence`, a loop over the union of the requested names.
- `crud.dfy` (module `Crud`): one mapped table as a `Database` object whose
  `rows` field is a sequence of rows (maps from column name to value). The
  query-building loop (`filter_by` then one `filter` per extra condition) is
  `BuildQuery`; the six CRUD operations are methods that state the result and
  the new `rows` in terms of the old ones.
- `scenario.dfy` (module `Scenario`): a client that creates the three rows of
  the example `test_table`, updates, retrieves, deletes and checks existence, proved from the
  operations' contracts alone.
- `wrappers.dfy`: `Option` and `Result`. `Result.Err` stands for the
  exceptions the Python code raises.

## Model

| member | source | states |
|---|---|---|
| `Connection.DBManagerInit` | pyalchemyadmin/db_manager.py:48-64 | Construction succeeds iff the dialect is one of the five and the engine is empty or in that dialect's list. An unknown dialect is reported before any engine check. On success the manager's URL is the constructed one. |
| `Connection.ConstructDatabaseUrl` | pyalchemyadmin/db_manager.py:75-82 | Definition of `_construct_database_url`. Its properties are stated by `SqliteUrlRoundTrip`, `SqliteUrlIgnoresServerFields`, `EngineSegmentIff` and `UrlEndsWithPortAndDatabase`. |
| `Connection.EmptyEngineAccepted` | pyalchemyadmin/db_manager.py:50 | An empty engine name never makes a supported dialect fail. |
| `Connection.SqliteRejectsEveryEngine` | pyalchemyadmin/db_manager.py:20-53 | For `sqlite`, whose engine list is `[""]`, every non-empty engine is rejected with the unsupported-engine error. |
| `Connection.SqliteUrlRoundTrip` | pyalchemyadmin/db_manager.py:78-79 | A sqlite URL gives back exactly the database it was built from. `:memory:` yields exactly `sqlite://`; any other name is embedded once after `sqlite:///`. |
| `Connection.SqliteUrlIgnoresServerFields` | pyalchemyadmin/db_manager.py:78-79 | User, password, host, port and engine never influence a sqlite URL. |
| `Connection.EngineSegmentIff` | pyalchemyadmin/db_manager.py:81-82 | A network URL starts with the dialect, and the character right after it is `+` iff an engine was given. |
| `Connection.UrlEndsWithPortAndDatabase` | pyalchemyadmin/db_manager.py:82 | A network URL ends with `:<port>/<database>`. |
| `Connection.DigitsOf` | pyalchemyadmin/db_manager.py:82 | The port's decimal text is non-empty, made only of digits, and starts with `0` only for the port 0 (no leading zero). |
| `Connection.DigitsRoundTrip` | pyalchemyadmin/db_manager.py:82 | Reading the decimal port text back gives the port. |
| `DialectDbManager.ResolvePort` | pyalchemyadmin/dialect_db_manager.py:21-22 | A missing port becomes the class's default port; a given port is forwarded unchanged. |
| `DialectDbManager.DefaultPortsAreStandard` | pyalchemyadmin/dialect_db_manager.py:36-57 | The default ports are 5432, 3306, 1521 and 1433 (written as those digits in a URL). SQLite has no default port. |
| `DialectDbManager.DialectInit` | pyalchemyadmin/dialect_db_manager.py:8-33 | Definition of `_DialectDBManager.__init__`: resolve the port, then run `DBManager`'s checks with the class's own dialect. Its properties are stated by `DialectInitFailsOnlyOnEngine`, `DefaultPortReachesUrl` and `ExplicitPortReachesUrl`. |
| `DialectDbManager.DialectInitFailsOnlyOnEngine` | pyalchemyadmin/dialect_db_manager.py:24-33 | `_DialectDBManager.__init__` run with each class's own constants forwards a supported dialect. It fails iff the engine is non-empty and not allowed for that dialect, and then with the unsupported-engine error. `SQLiteDBManager` overrides this constructor; its own is covered by the two `SQLiteInit` rows below. |
| `DialectDbManager.DefaultPortReachesUrl` | pyalchemyadmin/dialect_db_manager.py:21-33 | A network manager built without a port succeeds with a valid engine. Its URL starts with the class's own dialect and ends with `:<default port>/<database>`. |
| `DialectDbManager.ExplicitPortReachesUrl` | pyalchemyadmin/dialect_db_manager.py:21-33 | An explicitly given port appears unchanged as `:<port>/<database>` at the end of the URL. |
| `DialectDbManager.FirstUnexpected` | pyalchemyadmin/dialect_db_manager.py:8-9 | A call is accepted iff every keyword it passes is declared by the callee. Otherwise the reported keyword is the first passed keyword that the callee lacks. |
| `DialectDbManager.SQLiteInitAsWritten` | pyalchemyadmin/dialect_db_manager.py:59-69 | Definition of `SQLiteDBManager.__init__` as written: the keywords it forwards are checked against the parent's parameters before the parent runs. `SQLiteInitAsWrittenAlwaysFails` states its result. |
| `DialectDbManager.SQLiteInit` | pyalchemyadmin/dialect_db_manager.py:59-69 | Definition of `SQLiteDBManager.__init__` without the `dialect=` keyword. `SQLiteInitBuildsDatabaseUrl` states its result. |
| `DialectDbManager.SQLiteInitAsWrittenAlwaysFails` | pyalchemyadmin/dialect_db_manager.py:59-69 | As written, every `SQLiteDBManager` construction fails on the undeclared `dialect` keyword. |
| `DialectDbManager.SQLiteInitBuildsDatabaseUrl` | pyalchemyadmin/dialect_db_manager.py:59-69 | Without that keyword, construction always succeeds, and the URL denotes exactly the given database (`sqlite://` for `:memory:`). |
| `Columns.HasColumn` | pyalchemyadmin/db_manager.py:97-102 | Definition of `_has_column` for a mapped table: the name is a declared column. `ValidateColumnExistence` states what the checks built on it decide. |
| `Columns.ClashingKeyword` | pyalchemyadmin/db_manager.py:104-106 | Passing a set of keys as keyword arguments to `_validate_column_existence` fails iff one of them is `self` or `table`, which that function already binds by position. The reported argument is one of the clashing keys. |
| `Columns.ValidateColumnExistence` | pyalchemyadmin/db_manager.py:97-111 | Validation passes iff every positional name and every keyword key is a declared column. Otherwise it reports one of the checked names that the table lacks, with the table's name. |
| `Crud.BuildQuery` | pyalchemyadmin/db_manager.py:289-292 | The query built from `filter_by(**filters)` and one `filter` per condition selects a row iff the row satisfies every equality filter and every condition. |
| `Crud.Select` | pyalchemyadmin/db_manager.py:297 | A row is among the fetched rows iff it is in the table and the query accepts it; nothing else is fetched. |
| `Crud.SelectPartition` | pyalchemyadmin/db_manager.py:383-392 | The rows a query selects and the rows it rejects together make up the table, as multisets, so delete removes exactly the matching rows. |
| `Crud.NothingSelectedKeepsAll` | pyalchemyadmin/db_manager.py:392-396 | When no row matches, removing the matching rows leaves the table as it was. |
| `Crud.Project` | pyalchemyadmin/db_manager.py:388-390 | Definition of `with_entities(*return_columns)` on one row: the requested columns it has. `ShapeAllWithin` states that projection never adds a column. |
| `Crud.Shape` | pyalchemyadmin/db_manager.py:293-296 | Definition of what a query yields per row: the row itself, or its projection when columns are requested. `Crud.Database.Retrieve` and `Crud.Database.Delete` state their results through it. |
| `Crud.UpdateRows` | pyalchemyadmin/db_manager.py:342 | Definition of `query.update(update_values)`: matching rows take the new values, others stay. `UpdateIdempotent`, `UpdateKeepsFilterMatch` and `Crud.Database.Update` state its properties. |
| `Crud.UpdateIdempotent` | pyalchemyadmin/db_manager.py:342 | Applying the same update twice gives the same table as applying it once, including updates that move rows out of the matched set. |
| `Crud.UpdateKeepsFilterMatch` | pyalchemyadmin/db_manager.py:334-342 | An update whose values agree with the equality filters on shared columns keeps every matching row matching, so a later query with those filters finds the updated rows. |
| `Crud.CreatedRowIsRetrieved` | pyalchemyadmin/db_manager.py:195-200 | After a row is inserted, filtering on all of its fields finds what was found before plus exactly that row. |
| `Crud.Database.Create` | pyalchemyadmin/db_manager.py:195-200 | Succeeds iff every key is a declared column. It then appends exactly that row; on error the table is unchanged. |
| `Crud.Database.BulkCreate` | pyalchemyadmin/db_manager.py:229-237 | An empty list is a no-op. Records are checked in order, and the first rejected record decides the error. A record with a key `self` or `table` is rejected with the "multiple values" error before its columns are checked, even if such a column is declared. A record with an unknown column is rejected with the column error. On any error nothing is inserted. Otherwise one row per record is appended, in order. |
| `Crud.Database.Retrieve` | pyalchemyadmin/db_manager.py:281-300 | A fetch mode other than `all`/`one` is rejected before column validation. Then the return columns and filter keys are validated. With a valid mode, every error is the column error. `all` returns every matching row, projected when columns are requested. `one` returns some matching row, or nothing iff no row matches. Returned rows use only declared columns. |
| `Crud.Database.Update` | pyalchemyadmin/db_manager.py:327-343 | Empty update values are rejected first. Then the value and filter columns are validated; with non-empty values every error is the column error. On either error the table is unchanged. Otherwise matching rows take the new values and all other rows are unchanged. |
| `Crud.Database.Delete` | pyalchemyadmin/db_manager.py:377-402 | After validation, exactly the matching rows are removed. The error for "nothing deleted" occurs iff it was asked for and no row matched. The projection of the matching rows is returned iff columns were requested and some row matched, and it uses only declared columns. |
| `Crud.Database.Exists` | pyalchemyadmin/db_manager.py:424-431 | Only the filter keys are validated. The result is true iff some row satisfies all filters and conditions. |
| `Scenario.CreateProjects` | examples/example.py:10-13 | Three creates on an empty `test_table` ("Project 1" once, "Project 2" twice) store exactly those three rows, in order. |
| `Scenario.UpdateProjects` | examples/example.py:15-16 | Updating the annotation of the "Project 2" rows changes both of them and leaves the "Project 1" row alone. |
| `Scenario.DeleteProject` | examples/example.py:24-25 | Deleting by `project_name` "Project 1" removes that one row and keeps the two "Project 2" rows. |

## Findings

| source | as written | input that shows it | evidently intended | confidence | as-written member | corrected member |
|---|---|---|---|---|---|---|
| pyalchemyadmin/dialect_db_manager.py:66-69 | `SQLiteDBManager.__init__` passes `dialect=` to `_DialectDBManager.__init__`, which declares no `dialect` parameter (lines 8-9), so Python raises a TypeError | `S(database="app.db")` for a subclass `S` of `SQLiteDBManager` that implements `lock_table_command`; `SQLiteDBManager` itself fails earlier, as an abstract class | construct a sqlite manager with URL `sqlite:///app.db`; the parent already supplies `self.dialect` | high; not executed | `DialectDbManager.SQLiteInitAsWrittenAlwaysFails` | `DialectDbManager.SQLiteInitBuildsDatabaseUrl` |

## Left out

- SQLAlchemy machinery: `create_engine`, `sessionmaker`, `declarative_base`, `inspect`, `create_all_tables` and the `base`/`session` properties. These are calls into a library outside the model. Construction yields only the URL.
- `_has_column`'s check that the table is a mapped class of this manager (`issubclass(table, self._base)`): a `Database` always stands for a valid mapped table, with its declared columns given.
- `lock_table_command` and `with_for_update` (row and table locking): these concern concurrency. No subclass implements the abstract `lock_table_command`, so Python refuses to instantiate any of the managers; the model assumes a subclass that implements it.
- `execute` (raw SQL passthrough): it only hands text and parameters to the driver.
- Transactions and backend failures: every statement that passes the checks is assumed to succeed. The wrapping of SQLAlchemy errors into `ValueError` is not modelled. "Unchanged on error" is stated only where the checks come before any change.
- `echo` (SQL logging) and exception message texts.
- Row order: `Crud.Database.Retrieve` in mode `all`, and the records returned by `Crud.Database.Delete`, are stated as multisets. `Crud.Database.Retrieve` in mode `one` returns some matching row, not a specific one, because SQL imposes no order.
- `Columns.ValidateColumnExistence`: does not say which unknown column is reported. The code reports whichever column set iteration reaches first, which is not necessarily the lexicographically first, and the model follows the code.
- `complex_conditions` are arbitrary SQLAlchemy expressions; here they are total predicates on a row.
- NULL semantics and column defaults: a column missing from a row holds the database's default, and an equality filter on it never matches. SQLAlchemy's `column == None` (rendered `IS NULL`) is not modelled.
- Projected results are rows restricted to the requested columns, keyed by name, not positional tuples; a column requested twice appears once.
- Values are limited to integers, text and booleans. The returned ORM instances are modelled as rows.
- Each `Database` covers one table; a manager serving several tables is several `Database` objects.
- A port of `None` reaching a network URL is rendered as `None`, as Python's f-string does. The model does not check port ranges.
- `Columns.ClashingKeyword`: when a record has both `self` and `table` as keys, Python reports whichever comes first in the dict; the model's maps have no order, so it promises only one of the two.
- Keyword binding of the public calls: `create`, `retrieve`, `update`, `delete` and `exists` take their column values and filters as `**kwargs`. Python binds or rejects a key equal to one of their own parameter names (`self`, `table`, `fetch_mode`, ...) before any code of the manager runs. The model takes these arguments as maps and does not model that call-site rule. `bulk_create` receives plain dicts, so there the clash happens inside the manager, and the model includes it.
- `delete` with `error_when_empty` commits before raising. No row matched, so nothing is lost; the model states that the table is unchanged.
- `examples/example.py:16` calls `update` with a `filters=` keyword and no `update_values`, which does not match the signature at `pyalchemyadmin/db_manager.py:302-308`. `Scenario.UpdateProjects` makes the call the example evidently means.
- `innodisk_db_operation/postgre_db_manager.py` wraps a `create_database_session` of a module that is not part of this model. The package `__init__.py` files only re-export names.
