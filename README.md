# ExcelToSQLTable: schema inference and load mapping

ExcelToSQLTable reads the first worksheet of a spreadsheet into a `DataTable`
(first row as column names) and copies it into a SQL Server table. If the
table exists, it is truncated. If it does not, a `CREATE TABLE` statement is
built. Each column gets a type inferred from its first non-null value, and
spaces in column names become underscores. The rows are then bulk-copied,
with each source column mapped to its underscored name.

This project models the decision logic of `Program.cs` and proves its
properties:

- `DataTables` (`datatables.dfy`): the table as columns plus rows of
  `Option<V>` cells, where `None` is `DBNull`. It also holds `Parsers<V>`, the
  three `TryParse` checks, passed in as total predicates on the cell value.
- `TypeInference` (`type_inference.dfy`): `InferSqlType` is a loop with early
  exit. It is proved equal to the reference function `InferredType`, and the
  lemmas about `InferredType` state the promised behaviour (single sample,
  priority order, text fallback).
- `Naming` (`naming.dfy`): the space-to-underscore mapping.
- `Schema` (`schema.dfy`): the CREATE builder, a string buffer built in a loop
  and then truncated, and the truncate-or-create decision.
- `BulkLoad` (`bulk_load.dfy`): the `SqlBulkCopy` object whose column-mapping
  list the load fills in, and the consistency between the table's
  definitions and the load's mappings.

Modelling decisions:

- The newline that `AppendLine` writes is a parameter `nl`. On Windows, which
  the program targets (its input path starts `c:\`), it is `"\r\n"`.
- The existence query's scalar is an `int` input. Only the value 1 counts as
  "exists", as in the source.
- The column list is not required to be non-empty. With no columns the
  builder does not fail: it cuts the opening parenthesis off the header
  (and, for a one-character newline, the space before it too), and the model
  states that output. The database then rejects the resulting statement, so
  the run fails at `ExecuteNonQuery`.
- `CreateTableIfNotExists` uses the corrected builder (see "## Findings").
  For the Windows newline `"\r\n"` the corrected and the as-written builder
  produce the same statement.
- The type strings are the source's own (`INT`, `FLOAT`, `DATETIME`,
  `NVARCHAR(255)`), not abstract names such as INTEGER or TEXT.

## Model

| member | source | states |
|---|---|---|
| TypeInference.FirstNonNull | Program.cs:95-98 | the index found holds a non-null value and every earlier value is null; no index means every value is null |
| TypeInference.InferredType | Program.cs:100-111 | the inferred type is always one of `INT`, `FLOAT`, `DATETIME`, `NVARCHAR(255)` |
| TypeInference.InferSqlType | Program.cs:93-112 | the row scan with its early `return`/`break` computes exactly the reference type `InferredType` of the column's values |
| TypeInference.AllNullInfersText | Program.cs:95-111 | a column whose values are all null, including one with no rows, infers `NVARCHAR(255)` |
| TypeInference.NoRowsInfersText | Program.cs:95-111 | a table without rows infers `NVARCHAR(255)` for every column |
| TypeInference.InferencePriority | Program.cs:100-105 | for the first non-null value: `INT` iff it parses as int; `FLOAT` iff it is not an int and parses as double; `DATETIME` iff neither and it parses as a date; `NVARCHAR(255)` iff none of the three |
| TypeInference.FirstSampleDecides | Program.cs:97-107 | any number of nulls, then a value, then anything: the type is that value's classification, whatever follows |
| TypeInference.LaterValuesIgnored | Program.cs:100-107 | two columns that agree up to and including a non-null value infer the same type |
| TypeInference.LeadingNullsIgnored | Program.cs:95-98 | adding or removing leading nulls never changes the inferred type |
| Naming.MapColumnName | Program.cs:79 | the mapped name has the same length, contains no space, keeps every non-space character at its position and has `_` wherever the source had a space |
| Naming.NoSpaceUnchanged | Program.cs:79 | a name without spaces is mapped to itself |
| Naming.MapColumnNameIdempotent | Program.cs:79 | mapping twice equals mapping once |
| Naming.OrderDateExample | Program.cs:125 | `Order Date` maps to `Order_Date` |
| Naming.MappingMayCollide | Program.cs:79 | two distinct source names (`Order Date`, `Order_Date`) get the same destination name |
| Schema.JoinCons | Program.cs:77-84 | the separated list of definitions read from the front: the first, then `,` + newline before each further one |
| Schema.LinesAsJoin | Program.cs:81-84 | for at least one column, the definitions each followed by `,` + newline are the separated list plus one trailing `,` + newline, which the truncation is meant to remove |
| Schema.AppendColumnDefinitions | Program.cs:74-82 | the buffer holds the header line, then for every column in column order `    [mapped name] inferred type,` and a newline |
| Schema.BuildCreateStatementAsWritten | Program.cs:74-85 | the builder as written, removing 3 characters. With a 2-character newline and at least one column it yields the intended statement. With a 1-character newline the last column's definition loses its last character. With no columns the parenthesis is lost for a 2-character newline, and the space before it too for a 1-character newline |
| Schema.BuildCreateStatement | Program.cs:74-85 | the corrected builder. For at least one column and any newline: the header, the definitions in column order separated by `,` + newline with no comma after the last, then `\n);` and a newline |
| Schema.LineFeedCutsLastType | Program.cs:84 | with newline `\n`, a single column `ID` of type `INT` is defined as `[ID] IN` instead of `[ID] INT` |
| Schema.ThreeColumnShape | Program.cs:77-85 | a three-column statement has a comma after the first two definitions only |
| Schema.CreateTableIfNotExists | Program.cs:65-85 | the action is TRUNCATE exactly when the existence scalar is 1, and then it carries only `TRUNCATE TABLE name`. Otherwise it is CREATE with the corrected builder's statement, which is the source's for a 2-character newline |
| BulkLoad.SqlBulkCopy.constructor | Program.cs:119 | a new bulk copy has no column mappings |
| BulkLoad.SqlBulkCopy.AddColumnMapping | Program.cs:125 | one mapping is appended and the other settings are unchanged |
| BulkLoad.BulkInsertIntoSql | Program.cs:114-126 | destination is the table name and the timeout is 300. There is exactly one mapping per column, in column order, from the column's name to its mapped name |
| BulkLoad.CreateAndLoadAgreeOnNames | Program.cs:123-126 | the name in column c's CREATE definition (line 79) is the destination of column c's bulk mapping. The source of that mapping is the original name |
| BulkLoad.DestinationsAreFixed | Program.cs:125 | every destination name is free of spaces and is its own mapped name |

## Left out

- Schema.CreateTableIfNotExists: builds its CREATE statement with the corrected builder `BuildCreateStatement`. For a one-character newline it therefore differs from the source, which removes one more character (`[ID] INT` where the source writes `[ID] IN`; `CREATE TABLE T \n);` where the source writes `CREATE TABLE T\n);`). `BuildCreateStatementAsWritten` states the source's output for that case.
- Configuration in `Main` (Program.cs:10-35): the hard-coded path and table name, the connection string from environment variables, and the console output. This is wiring with nothing to prove. Only the null check that guards the two stages is implied, by the model taking a table as input.
- `ReadExcelFile` (Program.cs:37-52): file access and the spreadsheet library are external. The model starts from the resulting table.
- Database calls (Program.cs:56-63, 87-88, 116-128): opening connections, `ExecuteScalar`, `ExecuteNonQuery` and `WriteToServer`. They are foreign calls. The existence result comes in as an integer. The statements and the bulk-copy settings are what the model returns. Row transfer and table contents are not modelled.
- The internals of `int.TryParse`, `double.TryParse`, `DateTime.TryParse` and `ToString()`. They depend on culture and on floating-point and date parsing, so they are the parameters `Parsers.isInt`, `isDouble` and `isDate`.
- Quoting of the interpolated table name (Program.cs:61, 67, 75): the source does none, so nothing is stated about it.
- Reruns of the whole program against a database: once the statements are produced, the effect of truncation and loading on stored rows belongs to the database.

## Findings

| source | as written | input that shows it | evidently intended | confidence | as-written member | corrected member |
|---|---|---|---|---|---|---|
| Program.cs:84 | `sb.Length -= 3` always removes three characters | newline `"\n"` (non-Windows `Environment.NewLine`), one column `ID` inferred `INT`: the statement reads `[ID] IN` | remove only the trailing comma and the newline, whatever the newline's length | low: the program targets Windows, where the two agree; not executed | Schema.BuildCreateStatementAsWritten, Schema.LineFeedCutsLastType | Schema.BuildCreateStatement |
