# products-DB in Dafny

A model of the backend of products-DB, an Express and MySQL service for browsing and editing a products database, and of the scripts that load an Excel workbook of products into it. The model covers:

- the database layer (`config/database.js`);
- the four routers: table management, row CRUD, search and reports;
- the request validation middleware and the error handling of `server.js`;
- the five Excel upload scripts.

The database is not simulated. Every statement an operation sends is recorded in the event log of a `Db.Database` object. A function `db: Stmt -> Reply` stands for the server's answer to each statement: rows, an OK packet or an error. Operations are proved against specification functions of the statements they issue and the answers they give. Lemmas then prove what the source promises about those answers and statements.

Modules:

- `Js`: the JavaScript values the code handles, and the built-ins it relies on: truthiness, `String()`, `trim`, `parseInt`, `parseFloat`, `+` and property assignment.
- `Sql`: SQL text as a sequence of literal text, escaped identifiers and `?` placeholders, with statements and their parameters.
- `Sorting`: the comparator sort and `ORDER BY`, as a stable insertion sort.
- `Db`: the `Database` class: `query`, `transaction`, `getTables`, `getTableColumns`.
- `Http`, `Validation`, `Server`: responses, the Joi-based middleware and the error handler.
- `Tables`, `Data`, `Search`, `Reports`: the routers.
- `Excel`, `SheetImport`: the sheet reading, header mapping, row filling and the sheet and row loops that the upload scripts share.
- `UploadToRemote`, `UploadAdaptive`, `UploadFinal`, `UploadExcelFinal`, `UploadExcelFixed`: one module per script.

Two properties of the upload scripts stand out:

- Headers are trimmed before lookup, but four keys of their header mapping end in a space. So description, quantity, category and price never come from the sheet, and every row is inserted with the defaults for those fields.
- `upload-excel-final.js` clears the table inside the sheet loop, so only the last imported sheet's rows remain.

## Model

| member | source | states |
|---|---|---|
| Js.QueryInt | backend/routes/data.js:10-20 | an absent query parameter reads as its default |
| Js.ParseIntOfNumberToString | backend/routes/data.js:20 | `parseInt` of a number's decimal text gives the number back |
| Js.Plus | backend/routes/reports.js:73 | `+` adds two numbers, concatenates when either side is a string, and gives NaN from `undefined` plus a value that is not a string or an object |
| Js.Put | backend/upload-to-remote.js:173-203 | `o[k] = v` makes `k` read `v`, keeps the key order, appends a new key last and leaves every other key as it was |
| Js.PutPut | backend/routes/reports.js:48-49 | two assignments to different keys both stay visible |
| Sql.RenderedQuestionMarks | backend/config/database.js:72 | a statement whose literal text holds no `?`, rendered with an escaper that adds none, has exactly one `?` per placeholder |
| Sql.DisplayBindsPlaceholders | backend/routes/reports.js:149-152 | substituting the parameters one `?` at a time into the rendered text puts the k-th quoted parameter exactly where the k-th placeholder stands |
| Sql.ParamListPlaceholderCount | backend/routes/data.js:46 | `n` placeholders joined by commas hold `n` placeholders |
| Sql.IdListNoPlaceholders | backend/routes/data.js:48 | a comma-joined list of escaped identifiers holds no placeholder |
| Sql.IdListNames | backend/routes/data.js:48 | and it names exactly those identifiers, in order |
| Sorting.InsertPermutes | backend/routes/search.js:110 | placing an element adds exactly that element |
| Sorting.InsertSorted | backend/routes/search.js:110 | placing an element into a sorted sequence keeps it sorted |
| Sorting.SortCorrect | backend/routes/search.js:110 | for a total preorder, the result is sorted and is a permutation of the input |
| Sorting.SortLength | backend/config/database.js:110 | the sort keeps the number of rows |
| Validation.SchemaVerdict | backend/middleware/validation.js:23-28 | a schema middleware calls `next()` exactly when the schema accepts the body, and otherwise answers 400 with the validator's first message |
| Validation.ValidateDataInput | backend/middleware/validation.js:58-65 | `next()` exactly for a truthy body whose `typeof` is `object` (objects and arrays); otherwise 400 `Invalid data format`, so `null` and a missing body are rejected |
| Validation.NamesAreAlphanumeric | backend/middleware/validation.js:5 | an accepted name has 1 to 64 characters and no `_` (only ASCII letters and digits) |
| Validation.TypeList | backend/middleware/validation.js:10-13 | the type list has 15 entries; `int` and `integer` are both accepted, and the match is case-sensitive (`INT` and `json` are rejected) |
| Validation.ValidateTableCreation | backend/middleware/validation.js:3-29 | `validateTableCreation` calls `next()` exactly for a missing body or an object with only `name`, `displayName` and `columns`, an alphanumeric name of 1 to 64 characters, an optional display name of 1 to 255 characters, and at least one column spec whose name, type, length, flags and default the schema accepts; otherwise it answers 400 |
| Validation.ValidateTableUpdate | backend/middleware/validation.js:31-56 | `validateTableUpdate` calls `next()` exactly for a missing body or an object with only `action` and `column`, where the action is `add_column`, `delete_column` or `modify_column`, the column is an accepted spec without key flags for `add_column` and a non-empty string otherwise; otherwise it answers 400 |
| Validation.LengthRange | backend/middleware/validation.js:14 | a `length` sent as a number, or as the numeral of a number, is accepted exactly when it lies in 1..65535 |
| Validation.NumeralConverts | backend/middleware/validation.js:14 | Joi's number conversion reads back the integer a numeral was printed from |
| Validation.ConvertedLengths | backend/middleware/validation.js:14 | with conversion on, a string length with surrounding whitespace, a sign, leading zeros and a zero fraction is accepted; a non-zero fraction and a non-numeral are rejected |
| Validation.ConvertedBools | backend/middleware/validation.js:15-17 | with conversion on, the strings `true` and `false` in any letter case are accepted as booleans; padded strings and numbers are not |
| Validation.AddColumnRejectsKeyFlags | backend/middleware/validation.js:36-45 | an `add_column` spec carrying `primaryKey` or `autoIncrement` is rejected, since that schema does not declare them |
| Validation.UpdateColumnConditional | backend/middleware/validation.js:33-47 | for `delete_column` and `modify_column`, the body is accepted exactly when `column` is a non-empty string and no other keys are present |
| Server.NotFound | backend/server.js:57-59 | an unmatched route gets 404 with `Route not found` |
| Server.HandleError | backend/server.js:62-78 | the global error handler answers 400, 409 or 500 and nothing else; a 400 carries the error's own message and a 409 carries `Duplicate entry` |
| Server.ValidationFirst | backend/server.js:65-67 | a `ValidationError` answers 400 with its own message, whatever its code (this check comes before the duplicate check) |
| Server.StatusClassification | backend/server.js:65-77 | the status is 400 exactly for a `ValidationError`, 409 exactly for another error with code `ER_DUP_ENTRY`, and 500 exactly otherwise |
| Server.ProductionHidesMessage | backend/server.js:73-77 | a 500 carries `Internal server error` when `NODE_ENV` is `production` and the error's own message otherwise |
| Db.RunWorkPrefix | backend/config/database.js:87 | a callback that awaits its statements one by one runs exactly the statements up to and including the first that throws, and rethrows that error; when none throws it returns every reply |
| Db.ToColumnInfo | backend/config/database.js:135-143 | the name and type are copied; `nullable` holds exactly when `is_nullable` is `YES`; `primaryKey` exactly when the key is `PRI`; `autoIncrement` exactly for a primary key named `id` |
| Db.ColumnsOf | backend/config/database.js:130-131 | the selected catalog rows are exactly those of the named table |
| Db.OrderedColumnsSpec | backend/config/database.js:132 | the selected rows are the table's catalog rows, each once, in ordinal order |
| Db.TableColumnsSpec | backend/config/database.js:119-147 | `getTableColumns` maps every row of the table, in ordinal order, and yields `[]` when the query throws |
| Db.TableColumnsComplete | backend/config/database.js:135-143 | every catalog column of the table appears among the descriptors |
| Db.MetaFor | backend/config/database.js:107 | the metadata rows joined to a table are exactly those carrying its name |
| Db.Joined | backend/config/database.js:101-107 | a `LEFT JOIN` row exists for every physical table and keeps its name and row count |
| Db.StrLeTotal | backend/config/database.js:110 | the name order is total |
| Db.StrLeTransitive | backend/config/database.js:110 | the name order is transitive |
| Db.NameLePreorder | backend/config/database.js:110 | ordering listing rows by name is a total preorder |
| Db.TablesSpec | backend/config/database.js:98-117 | `getTables` lists the joined rows, each once, ordered by name, and yields `[]` when the query throws |
| Db.JoinAllNames | backend/config/database.js:106-109 | the joined rows name exactly the physical tables other than `table_metadata` |
| Db.TablesListed | backend/config/database.js:106-109 | the listing names exactly the physical tables other than `table_metadata` |
| Db.UnregisteredTableDefaults | backend/config/database.js:103-105 | a table without a metadata row is listed with its own name as display name, created "now" |
| Db.RegisteredTableDisplayName | backend/config/database.js:103-105 | a registered table shows its display name, or its own name when that is NULL, and its creation time, or "now" when that is NULL |
| Db.Database.Query | backend/config/database.js:70-80 | `query` runs one statement on the pool, appends it to the log and returns its reply (a thrown error propagates) |
| Db.Database.GetTableColumns | backend/config/database.js:119-147 | `getTableColumns` runs the catalog query and returns the mapped descriptors |
| Db.Database.GetTables | backend/config/database.js:98-117 | `getTables` runs the listing query and returns the ordered listing |
| Db.Database.RunCallback | backend/config/database.js:87 | the callback executes its statements in order and stops at the first that throws |
| Db.Database.Transaction | backend/config/database.js:82-96 | `transaction` logs acquire and begin, then the callback's statements, then commit and release, or rollback and release; it returns the callback's result or the error |
| Db.CommitPath | backend/config/database.js:82-90 | on success the events are acquire, begin, the statements in order, commit, release, and the callback's replies are returned |
| Db.CommitsIff | backend/config/database.js:82-96 | a transaction commits exactly when acquire, begin, every statement and the commit succeed |
| Db.WorkNeverReleases | backend/config/database.js:87 | the callback's statements never release the connection |
| Db.ReleasedOnce | backend/config/database.js:83-95 | once `beginTransaction` has succeeded, the connection is released exactly once, unless a needed rollback itself throws; before that it is never released |
| Db.RethrowsSameError | backend/config/database.js:91-94 | when the k-th statement is the first to throw, no later statement runs; the transaction rolls back, releases and rethrows that same error (or the rollback's own error when the rollback throws) |
| Db.BeginFailureLeaks | backend/config/database.js:83-85 | a failing `beginTransaction` is rethrown and the acquired connection is never released |
| Tables.Clauses | backend/routes/tables.js:36-58 | the optional clauses of a definition come in the fixed order length, PRIMARY KEY, AUTO_INCREMENT, NOT NULL, DEFAULT; each appears exactly under its condition (a truthy length or default; NOT NULL exactly when `nullable` is falsy and, for CREATE, `primaryKey` is falsy; the key flags only for CREATE) |
| Tables.KindsRanked | backend/routes/tables.js:38-56 | the clause kinds are listed in the order the builder appends them |
| Tables.SelectKind | backend/routes/tables.js:38-56 | a clause kind is emitted exactly when its condition holds |
| Tables.Select | backend/routes/tables.js:38-56 | the emitted clauses are exactly those whose condition holds, in their original order |
| Tables.ClausesSql | backend/routes/tables.js:38-56 | one SQL piece per clause, in clause order |
| Tables.DefinitionIdentifiers | backend/routes/tables.js:36 | a column definition escapes exactly its own column name and binds no parameter |
| Tables.ClausesFree | backend/routes/tables.js:38-56 | the optional clauses name no identifier and bind no parameter (length and default are interpolated as text) |
| Tables.StringFlagIsTruthy | backend/routes/tables.js:42-52 | a spec whose `primaryKey` is the string `false` passes the schema, yet the builder reads the unconverted body, where the string is truthy: the column gets PRIMARY KEY and no NOT NULL |
| Tables.StringLengthIsText | backend/routes/tables.js:38-40 | a length sent as a string is accepted only when it holds an integer in 1..65535, and it is interpolated as that very string |
| Tables.AbsentNullableIsNotNull | backend/routes/tables.js:50-52 | a spec without `nullable` that is not a primary key is declared NOT NULL, because the validator's `nullable: true` default is not written back |
| Tables.ValidatedIsBuildable | backend/routes/tables.js:31 | a body the validators accept has a string table name and columns with string names and types, and an update's column is a spec for `add_column` and a string otherwise |
| Tables.Definitions | backend/routes/tables.js:35-59 | one definition per column spec, in input order |
| Tables.DefinitionsIdentifiers | backend/routes/tables.js:35-59 | the joined definitions escape the column names in input order and bind nothing |
| Tables.CreateTableIdentifiers | backend/routes/tables.js:61-62 | `CREATE TABLE` escapes the table name and then every column name, in order, and has no placeholder (it runs without parameters) |
| Tables.MetadataPlaceholders | backend/routes/tables.js:66 | the metadata INSERT has 2 placeholders; the timestamp UPDATE and the metadata DELETE have 1 each |
| Tables.CreateTableBalanced | backend/routes/tables.js:33-69 | both statements of table creation bind one parameter per placeholder, and the recorded display name is `displayName || name` |
| Tables.UpdateTableWork | backend/routes/tables.js:83-112 | `add_column` runs ADD COLUMN and `delete_column` runs DROP COLUMN; any other action runs no structural statement; every run ends with the metadata timestamp update |
| Tables.AddColumnClauses | backend/routes/tables.js:84-97 | an added column never gets PRIMARY KEY or AUTO_INCREMENT, and is NOT NULL exactly when `nullable` is falsy |
| Tables.DropColumnFree | backend/routes/tables.js:103 | DROP COLUMN binds nothing |
| Tables.UpdateTableBalanced | backend/routes/tables.js:83-112 | every statement of a table update binds one parameter per placeholder |
| Tables.Answer | backend/routes/tables.js:71-74 | a committed transaction gives the success response; an aborted one gives 500 with the error's message |
| Tables.ListTables | backend/routes/tables.js:8-15 | `GET /` runs the listing query and answers with the ordered listing |
| Tables.DescribeTable | backend/routes/tables.js:18-26 | `GET /:tableName` runs the catalog query and answers with the name and its column descriptors |
| Tables.CreateTable | backend/routes/tables.js:29-75 | for every body the creation schema accepts, converted strings included, `POST /` runs the CREATE and the metadata INSERT in one transaction; it answers 201 with the name when the transaction commits, and 500 otherwise |
| Tables.UpdateTable | backend/routes/tables.js:78-118 | for every body the update schema accepts, converted strings included, `PUT /:tableName` runs the update's statements in one transaction and answers 200 or 500 |
| Tables.DeleteTable | backend/routes/tables.js:121-134 | `DELETE /:tableName` runs DROP TABLE IF EXISTS and then the metadata DELETE, in one transaction, and answers 200 or 500 |
| Tables.DeleteTableOrder | backend/routes/tables.js:125-128 | a drop that succeeds acquires, begins, runs the DROP and then the DELETE, commits and releases, in that order |
| Data.ListParts | backend/routes/data.js:12-19 | the SELECT head escapes the table; ORDER BY escapes `sortBy` only when it is given; the tail has the two placeholders of `LIMIT ? OFFSET ?` |
| Data.ListStatement | backend/routes/data.js:10-20 | the listing always binds exactly `parseInt(limit)` and `parseInt(offset)` (defaults 1000 and 0), one per placeholder; it orders only when `sortBy` is given, by that column, with the upper-cased `sortOrder` appended unchecked |
| Data.ListDirection | backend/routes/data.js:16 | the given `sortOrder`, upper-cased, appears in the statement as is |
| Data.List | backend/routes/data.js:7-29 | `GET /:tableName` runs the listing and then the column query and answers `{rows, columns}`; a failing listing answers 500 and runs nothing more |
| Data.CleanFields | backend/routes/data.js:38-42 | the cleaned body holds exactly the fields whose key is not `id` and whose value is not `undefined`, `null` or `''` |
| Data.CleanFieldsAppend | backend/routes/data.js:38-42 | cleaning commutes with concatenation, so kept fields keep their order |
| Data.CleanKeepsZeroAndFalse | backend/routes/data.js:40 | `0` and `false` are kept |
| Data.InsertParts | backend/routes/data.js:46-48 | the column list escapes exactly the kept columns and binds nothing; the value list has one `?` per column |
| Data.InsertStatement | backend/routes/data.js:44-50 | the INSERT escapes the table and then exactly the kept columns, in order, and binds one kept value per placeholder |
| Data.Create | backend/routes/data.js:32-62 | `POST /:tableName` runs the INSERT, then re-selects the row by `insertId` and answers 201 with it; either failure answers 500 and stops |
| Data.WithoutId | backend/routes/data.js:71 | `delete data.id` leaves exactly the fields whose key is not `id` |
| Data.Assignments | backend/routes/data.js:75 | one `col = ?` per remaining key, in order |
| Data.AssignmentsShape | backend/routes/data.js:75 | the SET list escapes the columns in order and has one placeholder per column |
| Data.UpdateStatement | backend/routes/data.js:73-79 | the UPDATE assigns exactly the non-`id` keys, in order, and binds their values followed by the path id, one per placeholder |
| Data.EmptyUpdate | backend/routes/data.js:73-79 | an empty payload still yields an UPDATE, with an empty SET list and only the id bound |
| Data.Update | backend/routes/data.js:65-91 | `PUT /:tableName/:id` runs the UPDATE, then re-selects the row and answers with it; either failure answers 500 and stops |
| Data.BulkWork | backend/routes/data.js:104-116 | at most one UPDATE per record |
| Data.BulkWorkShape | backend/routes/data.js:104-116 | the bulk callback runs exactly one UPDATE per record with a truthy `id`, each balanced and built from that record with its id bound last |
| Data.BulkUpdate | backend/routes/data.js:94-123 | a body that is not an array answers 400 and runs nothing; otherwise all updates run in one transaction, answered 200 on commit and 500 otherwise |
| Data.Delete | backend/routes/data.js:126-137 | `DELETE /:tableName/:id` runs one DELETE bound to the id and answers 200 or 500 |
| Data.BulkDeleteBalanced | backend/routes/data.js:149-152 | the `IN` list has exactly `ids.length` placeholders, bound to the ids in order |
| Data.BulkDelete | backend/routes/data.js:140-158 | a missing, non-array or empty `ids` answers 400 and runs nothing; otherwise one DELETE runs, answered 200 or 500 |
| Search.Searchable | backend/routes/search.js:18-20 | the searchable columns are exactly those whose lower-cased type is `varchar`, `text` or `char` |
| Search.SearchableAppend | backend/routes/search.js:18-20 | the filter keeps catalog order |
| Search.Conditions | backend/routes/search.js:27-29 | one `col LIKE ?` per searchable column, in order |
| Search.Patterns | backend/routes/search.js:31-32 | the parameters are `%q%` once per searchable column |
| Search.ConditionsShape | backend/routes/search.js:27-29 | the conditions escape the column names in order and have one placeholder each |
| Search.SearchParts | backend/routes/search.js:34-38 | the head escapes the table, the conditions are joined by ` OR `, and the tail is `LIMIT ?` |
| Search.SearchStatement | backend/routes/search.js:27-40 | the statement binds one pattern per condition and then the limit, one per placeholder, and escapes the table and then the columns |
| Search.ResultValues | backend/routes/search.js:43-47 | each row becomes `{tableName, id, data}`, in order |
| Search.SearchTable | backend/routes/search.js:7-53 | a missing or empty `q` answers 400 and runs nothing; a table without text columns answers `{results: []}` without a search statement; otherwise one LIKE statement bound to `parseInt(limit)` (50 by default) runs and its rows are answered, or 500 on failure |
| Search.BonusRange | backend/routes/search.js:146-148 | the tightness bonus of a containing value lies in [1, 10] and is 10 exactly when the value is as long as the query |
| Search.ColumnBands | backend/routes/search.js:128-148 | one column contributes 110 for an exact match, [51, 60) for a longer prefix match, [26, 35) for any other containing value, and 0 for a falsy or non-matching value |
| Search.ScoreNonNegative | backend/routes/search.js:123-153 | a row's score lies between 0 and 110 per searchable column |
| Search.RelevanceScore | backend/routes/search.js:123-153 | `calculateRelevanceScore` accumulates the columns' contributions in column order |
| Search.HitValue | backend/routes/search.js:114 | a stripped result has exactly the keys `tableName`, `id` and `data`; the score is removed |
| Search.RowHits | backend/routes/search.js:95-100 | one scored hit per returned row, in order, under the table's name |
| Search.HitsFromSucceededTables | backend/routes/search.js:68-107 | every hit comes from a listed table whose statement succeeded and is one of its rows; a failing table contributes nothing and does not stop the search |
| Search.TableContribution | backend/routes/search.js:92 | each table's statement is bound to the limit 20, and a table contributes at most 20 rows when the database honours that limit |
| Search.Ranked | backend/routes/search.js:110 | the sorted hits are a permutation of all hits, in non-increasing score order |
| Search.SliceEnd | backend/routes/search.js:111 | `slice(0, parseInt(limit))` stops at the given limit capped by the length, counts a negative limit from the end, and takes nothing for `NaN` |
| Search.GlobalRanking | backend/routes/search.js:109-116 | the answered results are the best-scored hits in non-increasing order, at most `limit` of them (100 by default); no dropped hit outscores a kept one; `totalFound` counts every hit before truncation |
| Search.ScoreRows | backend/routes/search.js:95-100 | the loop scores every returned row |
| Search.SearchOne | backend/routes/search.js:70-102 | one table of the listing: its column query, then its search statement only when it has text columns |
| Search.SearchNext | backend/routes/search.js:68-107 | one loop step extends the events and hits of the tables before it |
| Search.SearchAll | backend/routes/search.js:68-107 | the loop searches every listed table in order |
| Search.GlobalSearch | backend/routes/search.js:56-120 | a missing or empty `q` answers 400 and runs nothing; otherwise the listing runs, every table is searched, and the hits are ranked, truncated and stripped |
| Reports.ColumnStatFields | backend/routes/reports.js:37-42 | a column entry carries the column's name, and its `nullable` is always false, because a boolean is compared with the string `YES` |
| Reports.ThrownStaysThrown | backend/routes/reports.js:31-43 | once the column loop has thrown, later columns run no statement and keep the error |
| Reports.ColumnStatsShape | backend/routes/reports.js:30-43 | a completed loop has one entry per column, in column order, each named after its column and reporting `nullable` false |
| Reports.PutTimestamps | backend/routes/reports.js:46-50 | the spread object takes the overriding `created_at` and `updated_at` |
| Reports.TableInfoTimestamps | backend/routes/reports.js:48-49 | the reported timestamps are never falsy: a missing one falls back to "now" |
| Reports.TableStatsAnswer | backend/routes/reports.js:45-54 | a successful answer reports the row count and the columns' count, with one column entry per column, in order, each with `nullable` false |
| Reports.CollectColumnStats | backend/routes/reports.js:30-43 | the loop runs one NULL count per column, in order, until one throws |
| Reports.TableStatsRunCases | backend/routes/reports.js:9-58 | a failing table-info query answers 500 after one statement; a failing count answers 500 after two; otherwise the catalog and column phase follow |
| Reports.TableStats | backend/routes/reports.js:9-58 | `GET /stats/:tableName` runs the table info, the row count, the catalog query and the column loop, and answers as the run above |
| Reports.FinishTableStats | backend/routes/reports.js:27-54 | the stages after the two counts: the catalog columns, the column loop and the answer |
| Reports.TotalsAreEntrySums | backend/routes/reports.js:63-91 | `totalColumns` is the sum of the listed column counts; with numeric counts `totalRows` is the sum of the listed row counts; only tables whose statements succeeded are listed |
| Reports.ColumnsAreSummed | backend/routes/reports.js:74 | `totalColumns` accumulates the listed column counts |
| Reports.RowsAreSummed | backend/routes/reports.js:73 | `totalRows` accumulates the listed row counts when those are numbers |
| Reports.AddStatSummed | backend/routes/reports.js:73-80 | one successful table keeps `totalRows` equal to the sum of the listed row counts |
| Reports.EntriesAreListed | backend/routes/reports.js:76-80 | every entry of `tables` names a listed table whose statements succeeded |
| Reports.StatEntryFields | backend/routes/reports.js:76-80 | an entry carries the table's name, row count and column count |
| Reports.AccumulateStep | backend/routes/reports.js:68-84 | one more table adds its statements to the log and, when both succeeded, its entry |
| Reports.StatOne | backend/routes/reports.js:69-83 | one table's count statement and, when it succeeds, its columns |
| Reports.AccumulateStats | backend/routes/reports.js:68-84 | the loop over the listing accumulates every table, skipping those that throw |
| Reports.GlobalStats | backend/routes/reports.js:61-95 | `GET /stats` runs the listing and then every table's statements, and answers the accumulated totals, with `tableCount` the size of the whole listing, failed tables included |
| Reports.ListUseOf | backend/routes/reports.js:111-135 | a body list is mapped over only when it is a non-empty array |
| Reports.Names | backend/routes/reports.js:112 | one escaped name per listed column |
| Reports.Conditions | backend/routes/reports.js:122-125 | one condition per filter, in filter order |
| Reports.FilterValues | backend/routes/reports.js:123 | one bound value per filter, in filter order |
| Reports.OrderClauses | backend/routes/reports.js:136-138 | one ordering clause per entry, in order |
| Reports.ConditionShape | backend/routes/reports.js:124 | a condition binds one value and escapes its filter's column |
| Reports.ConditionsShape | backend/routes/reports.js:122-126 | the conditions bind one value per filter and escape the filtered columns in order |
| Reports.OrderClausesShape | backend/routes/reports.js:136-139 | the ordering clauses bind nothing and escape their columns in order |
| Reports.ReportParts | backend/routes/reports.js:108-143 | each clause binds and escapes what it should: the projection and grouping their names, WHERE one value per filter, ORDER BY its columns, FROM the table |
| Reports.ReportSqlShape | backend/routes/reports.js:108-143 | the report SQL has one placeholder per filter and escapes the selected columns, the table, the filtered, grouping and ordering columns, in that clause order |
| Reports.ReportStatementOk | backend/routes/reports.js:107-145 | a statement that builds is the report SQL over the used parts of the body, with `tables[0]` as its table |
| Reports.ReportShape | backend/routes/reports.js:107-145 | the report statement binds the filters' values in order, one per placeholder, and names the selected columns, `tables[0]`, the filtered, grouping and ordering columns, in that order |
| Reports.ReportTextFree | backend/routes/reports.js:108-143 | when no operator or direction contains a `?`, no literal part of the report SQL does |
| Reports.ReportDisplay | backend/routes/reports.js:149-152 | the displayed SQL replaces the k-th `?` with the k-th bound value, quoted, provided no escaped name, operator or direction contains a `?` |
| Reports.OperatorVerbatim | backend/routes/reports.js:124 | a filter's operator reaches the SQL as written, unescaped and unchecked |
| Reports.BindFilters | backend/routes/reports.js:122-125 | the filter map pushes one value per filter and builds its condition, or throws at the first unreadable filter |
| Reports.BuildReport | backend/routes/reports.js:107-143 | the `sql +=` builder yields the report statement, or the error the body makes it throw |
| Reports.Generate | backend/routes/reports.js:98-160 | a missing or empty `tables` answers 400 and runs nothing; a body that makes the builder throw answers 500; otherwise the statement runs and the rows are answered with the displayed SQL and the row count |
| Reports.FormatIgnoresCase | backend/routes/reports.js:175 | the format is matched without regard to ASCII case |
| Reports.FormatNames | backend/routes/reports.js:166-191 | each format is chosen by its own name, and a missing format means CSV |
| Reports.FormatOnlyNamed | backend/routes/reports.js:175-205 | a format is chosen exactly when the lower-cased name is `csv`, `json` or `xlsx` |
| Reports.SheetNameError | backend/routes/reports.js:194 | the sheet name is refused exactly when it is longer than 31 characters or holds one of `: \ / ? * [ ]`, with the length message first |
| Reports.DispositionSafe | backend/routes/reports.js:181-199 | the `Content-Disposition` header can be sent exactly when the table name holds only tab, printable ASCII and Latin-1 characters |
| Reports.AlphanumericExport | backend/routes/reports.js:181-200 | a table name of 1 to 64 ASCII letters and digits, as the creation schema allows, exports as CSV and JSON, and as XLSX exactly when it has at most 31 characters; a longer one answers 500 with the sheet-name message |
| Reports.Export | backend/routes/reports.js:163-209 | one SELECT of the whole table; 500 when it fails; 404 for an empty table whatever the format; 400 for any other format; for a chosen format, 500 with the thrown message when the XLSX sheet name or the `Content-Disposition` header refuses the table name, and otherwise the download |
| Js.TrimShape | backend/upload-to-remote.js:126 | a trimmed string is empty or starts and ends with a non-space, and it is empty exactly when the string is all whitespace |
| Js.TrimIdempotent | backend/upload-to-remote.js:126 | trimming twice is trimming once |
| Js.TrimmedNeverEndsInSpace | backend/upload-to-remote.js:23-32 | no trimmed string equals a key that ends in whitespace |
| Excel.TrimmedHeaders | backend/upload-to-remote.js:125-127 | one trimmed header per cell of the first row, in order |
| Excel.FalsyHeaderIsEmpty | backend/upload-to-remote.js:126 | a falsy header cell (`0`, `false`, `null`, `undefined`, NaN, `''`) becomes `''` |
| Excel.TrimmedHeaderStable | backend/upload-to-remote.js:126 | a normalised header is its own trim |
| Excel.DataRows | backend/upload-to-remote.js:131-133 | a row is kept exactly when it is one of the rows and some cell is not `undefined`, not `null` and not blank after trimming |
| Excel.DataRowsAppend | backend/upload-to-remote.js:131-133 | the filter keeps sheet order |
| Excel.DataRowsSingle | backend/upload-to-remote.js:131-133 | a row with no non-blank cell is dropped, and a row with one is kept |
| Excel.Lookup | backend/upload-to-remote.js:165 | a header maps to no column only when it is no key of the mapping |
| Excel.LookupFound | backend/upload-to-remote.js:165 | a header maps to a column only through an entry with that key and that column |
| Excel.KeyMisses | backend/upload-to-remote.js:23-32 | a header that does not end in whitespace never reaches a column whose keys all do |
| Excel.TrimmedHeaderMisses | backend/upload-to-remote.js:125-127 | no trimmed header reaches a column whose keys all end in whitespace |
| Excel.FirstDigitSpec | backend/upload-to-remote.js:188 | only non-digits come before the first digit |
| Excel.DigitMatchNone | backend/upload-to-remote.js:188 | `/(\d+)/` has no match exactly when the text has no decimal digit |
| Excel.DigitMatchSome | backend/upload-to-remote.js:188 | the first capture is the maximal run of digits that starts at the first digit |
| Excel.QuantityValue | backend/upload-to-remote.js:188-190 | the quantity is the decimal value of the first run of digits, and 0 when there is no digit |
| Excel.QuantityOfNumeral | backend/upload-to-remote.js:188-190 | a number written between non-digit text is read back exactly |
| Excel.FilledField | backend/upload-to-remote.js:164-206 | after the `forEach`, a field holds the converted, trimmed cell of the last header that writes it, and its default when no header does |
| Excel.LastWriterSpec | backend/upload-to-remote.js:164-206 | the last writer of a field writes it, and no later header does |
| Excel.FilledUnchanged | backend/upload-to-remote.js:164-206 | headers that do not write a field leave it as it was |
| Excel.FilledStep | backend/upload-to-remote.js:164-206 | one more visited header sets a field exactly when that header writes it, and otherwise keeps it |
| Excel.VisitField | backend/upload-to-remote.js:165-204 | one callback visit sets a field to the converted, trimmed cell exactly when the header maps to it, the cell is not blank and the `switch` handles that column; any other field is unchanged |
| Excel.FillRow | backend/upload-to-remote.js:155-206 | the `forEach` over the headers, started from the defaults, computes the filled row |
| Excel.NeverWritten | backend/upload-to-remote.js:23-32 | a field whose every mapping key ends in whitespace keeps its default for every row, whatever the sheet's header row |
| Excel.UnhandledNeverWritten | backend/upload-adaptive.js:145-179 | a field that no `case` handles, with no `default`, keeps its default for every row |
| SheetImport.InsertBalanced | backend/upload-to-remote.js:214-228 | the INSERT has one placeholder per listed column and binds one parameter for each |
| SheetImport.InsertIgnoresField | backend/upload-excel-final.js:139-165 | a field the INSERT does not list has no effect on the statement, so whatever a row stores under it is never written |
| SheetImport.ImportRow | backend/upload-to-remote.js:151-236 | one iteration: a row whose name is falsy or still `Unknown Product` issues nothing and is skipped; otherwise its INSERT is issued and the row counts as inserted, or as an error when the insert throws |
| SheetImport.ImportRows | backend/upload-to-remote.js:146-237 | the row loop issues every row's statements in order and tallies every row's outcome |
| SheetImport.RowsAccounted | backend/upload-to-remote.js:150-237 | a failing insert does not end the loop: every named row issues exactly one statement and is counted once, as inserted, as an error or (with `INSERT IGNORE`) as a changed-nothing row; skipped rows issue nothing |
| SheetImport.ErrorsAreFailures | backend/upload-to-remote.js:232-236 | the error counter is the number of issued inserts whose reply is an error |
| SheetImport.RowErrors | backend/upload-to-remote.js:232-236 | a row issues at most one statement and adds an error exactly when that statement fails |
| SheetImport.RowsEventsAreInserts | backend/upload-to-remote.js:214-228 | every statement of the row loop is the script's INSERT |
| SheetImport.ImportSheet | backend/upload-to-remote.js:116-244 | one sheet: an empty sheet or one without data rows issues nothing and keeps the totals; otherwise its rows are imported (after the clear, in the script that clears per sheet) and added to the totals |
| SheetImport.HaltedStays | backend/upload-excel-final.js:80-81 | once a clear has thrown, the remaining sheets change nothing |
| SheetImport.SheetsRunStep | backend/upload-to-remote.js:113-245 | one more sheet appends its statements and moves the totals forward |
| SheetImport.ImportSheets | backend/upload-to-remote.js:113-245 | the loop over the workbook's sheets, in order |
| SheetImport.TotalsAreSums | backend/upload-to-remote.js:243-244 | a completed loop reports the per-sheet counters added up |
| SheetImport.WithoutClearNeverHalts | backend/upload-to-remote.js:113-245 | without a per-sheet clear nothing in the loop ends the run, and its statements are the row inserts of each imported sheet in turn |
| SheetImport.ClearingNeverHalts | backend/upload-excel-final.js:51-182 | with a clear that succeeds, nothing in the loop ends the run either |
| SheetImport.FailedClearSheets | backend/upload-excel-final.js:75-81 | with a clear that fails, the loop issues only the clear of the first sheet with data rows and ends there, and it ends early exactly when some sheet has data rows |
| SheetImport.LastImportedSpec | backend/upload-excel-final.js:75-78 | no sheet after the last imported one has data rows |
| SheetImport.TrailingEmptySheets | backend/upload-to-remote.js:119-140 | sheets with nothing to import change nothing |
| SheetImport.ClearEachKeepsLastSheet | backend/upload-excel-final.js:80-81 | with the clear inside the loop, the loop ends with the clear of the last imported sheet followed by that sheet's inserts, none of them a clear: only that sheet's rows remain |
| SheetImport.ClearEachScript | backend/upload-excel-final.js:38-182 | the same for a whole script that describes the table first and runs nothing after the loop |
| SheetImport.InsertIsNotClear | backend/upload-excel-final.js:152-155 | the INSERT is not the clear |
| SheetImport.ChainedSpec | backend/upload-to-remote.js:93-109 | statements awaited one after another are issued as a prefix of the list; every one before the last issued succeeded, and the chain reports an error exactly when one failed, namely the last one issued |
| SheetImport.RunChain | backend/upload-to-remote.js:93-109 | the awaited statements run in order until one throws |
| SheetImport.ChainHaltedStays | backend/upload-to-remote.js:93-109 | after a statement throws, no later statement runs |
| SheetImport.CompletedScript | backend/upload-to-remote.js:82-252 | a script whose statements before and after the loop succeed issues them and the loop's statements in that order |
| SheetImport.RunScript | backend/upload-to-remote.js:79-273 | a whole script: the statements before the loop, the loop and the statements after it, a throw outside the row `try` ending the run in the outer `catch` |
| SheetImport.ScriptWithoutClear | backend/upload-to-remote.js:82-252 | a script without a per-sheet clear whose setup succeeds issues the setup, every imported sheet's inserts and the final statements, and reports the per-sheet counters added up unless a final statement throws |
| SheetImport.SpaceKeyedUnreachable | backend/upload-to-remote.js:23-32 | the description, quantity, category and price fields keep their `rowData` defaults for every row of every sheet, because their keys end in a space and headers are trimmed |
| SheetImport.SpaceKeyedArg | backend/upload-to-remote.js:219-228 | so an INSERT parameter drawn from such a field is the same for every row |
| SheetImport.FixedArg | backend/upload-to-remote.js:219-228 | such a parameter is always the one the defaults give |
| SheetImport.DefaultParameters | backend/upload-to-remote.js:155-228 | in each of the four trimming scripts, whose `rowData` starts with the name placeholder, quantity 0 and price 0, every row is inserted with no description, price 0, no category and quantity 0, whatever the sheet holds |
| SheetImport.ChainedTwo | backend/upload-adaptive.js:219-229 | of two statements after the loop, the second is not issued when the first throws |
| UploadToRemote.RunOrder | backend/upload-to-remote.js:82-252 | when the setup succeeds, the script creates both tables, describes products and clears it once, then issues every imported sheet's inserts and the final count, and reports the per-sheet counters added up unless the count throws |
| UploadToRemote.InsertedColumnsExist | backend/upload-to-remote.js:39-53 | every column the INSERT names is a column of the table the script creates |
| UploadToRemote.FixedParameters | backend/upload-to-remote.js:219-228 | every row is inserted with no description, price 0, no category and quantity 0, because the keys of those fields end in a space |
| UploadAdaptive.RunOrder | backend/upload-adaptive.js:69-229 | when the setup succeeds, the script creates both tables, describes products and clears it once, then issues every imported sheet's inserts, the final count and (unless the count throws) the sample query, and reports the per-sheet counters added up unless one of those two throws |
| UploadAdaptive.InsertedColumnsExist | backend/upload-adaptive.js:26-39 | every column the seven-column INSERT names is a column of the table the script creates |
| UploadAdaptive.StatusNeverStored | backend/upload-adaptive.js:152-177 | the status header is mapped but no `case` stores it, so `rowData.status` stays `undefined` |
| UploadAdaptive.FixedParameters | backend/upload-adaptive.js:192-200 | every row is inserted with no description, price 0, no category and quantity 0 |
| UploadExcelFinal.OnlyLastSheetRemains | backend/upload-excel-final.js:38-182 | each imported sheet first empties the table, so the run ends with the clear of the last imported sheet and that sheet's inserts, none of them a clear: only the last imported sheet's rows remain |
| UploadExcelFinal.FailedClearStops | backend/upload-excel-final.js:75-81 | when the clear fails, the run stops at the first sheet with data rows before any insert, and stops exactly when such a sheet exists |
| UploadExcelFinal.StatusNotInserted | backend/upload-excel-final.js:139-165 | the `default` branch stores the status in `rowData`, but whatever it stores the INSERT is the same |
| UploadExcelFinal.FixedParameters | backend/upload-excel-final.js:157-165 | every row is inserted with no description, price 0, no category and quantity 0 |
| UploadFinal.AlterRunSpec | backend/upload-final.js:46-52 | every ALTER issued adds a required column that is neither present nor `id`, and when no ALTER failed every such column received one |
| UploadFinal.AlterHaltedStays | backend/upload-final.js:46-52 | after an ALTER throws, no further column is added |
| UploadFinal.AlterRunStep | backend/upload-final.js:46-52 | one more required column issues its ALTER exactly when nothing has thrown and the column is missing and is not `id` |
| UploadFinal.AddMissingColumns | backend/upload-final.js:45-52 | the loop over the required columns issues the ALTERs in order and stops at the first that throws |
| UploadFinal.EnsureTableCompatibility | backend/upload-final.js:21-63 | describe the table, add the missing columns, describe it again; any throw ends the step with that error |
| UploadFinal.InsertedColumnsEnsured | backend/upload-final.js:21-63 | once the compatibility step succeeds, every column the INSERT names either was in the table or had an ALTER issued for it |
| UploadFinal.ColumnsEnsured | backend/upload-final.js:46-52 | the same for any list of required names that are not `id` |
| UploadFinal.ArgsRequired | backend/upload-final.js:32-43 | the INSERT's columns are all among the required columns, and none is `id` |
| UploadFinal.ClearIfPopulated | backend/upload-final.js:91-99 | the table is cleared only when the count before is positive; a failing count or clear ends the run with its error, and an empty count result throws reading `count` of `undefined` |
| UploadFinal.Upload | backend/upload-final.js:65-258 | the whole script: compatibility, the conditional clear, the sheet loop, the final count and the sample |
| UploadFinal.RunOrder | backend/upload-final.js:65-237 | when the statements outside the loop succeed, the script issues the compatibility statements, the count and (for a positive count) the clear, then every imported sheet's inserts, the final count and the sample, and reports the per-sheet counters added up |
| UploadFinal.NotesNotInserted | backend/upload-final.js:179-205 | the status header is stored as `notes`, but whatever it stores the INSERT is the same |
| UploadFinal.FixedParameters | backend/upload-final.js:197-205 | every row is inserted with no description, price 0, no category and quantity 0 |
| UploadExcelFixed.KeptRows | backend/upload-excel-fixed.js:53 | a row is kept exactly when it is one of the rows, is not empty and has a cell that is neither `null`, `undefined` nor `''` |
| UploadExcelFixed.SkipTestNeverFires | backend/upload-excel-fixed.js:122-124 | the skip test in the row loop never fires on a kept row |
| UploadExcelFixed.SafeNameShape | backend/upload-excel-fixed.js:108 | the sanitised header has one character per character of the header: letters lower-cased, digits and `_` kept, anything else `_` |
| UploadExcelFixed.SafeNameIdempotent | backend/upload-excel-fixed.js:108 | sanitising twice is sanitising once |
| UploadExcelFixed.MappedColumns | backend/upload-excel-fixed.js:102-110 | one column per header, in order |
| UploadExcelFixed.WordHeaderColumn | backend/upload-excel-fixed.js:102-110 | an unmapped header made of ASCII letters, digits and `_` becomes its own lower-case form |
| UploadExcelFixed.SpacedHeaderDropped | backend/upload-excel-fixed.js:102-110 | an unmapped header that ends in a space (headers are not trimmed here) never reaches a product field |
| UploadExcelFixed.HeaderMappingColumns | backend/upload-excel-fixed.js:66-99 | every entry of the mapping names a product field or `id` |
| UploadExcelFixed.StoreField | backend/upload-excel-fixed.js:142-163 | one iteration of the column loop sets a field exactly when the column is that field and the cell is not missing, with the text, or the parsed number with 0 for NaN; `id` and unknown columns change nothing |
| UploadExcelFixed.FillUnchanged | backend/upload-excel-fixed.js:138-164 | columns that do not store a field leave it as it was |
| UploadExcelFixed.FillStep | backend/upload-excel-fixed.js:138-164 | one more column sets a field exactly when that column stores it |
| UploadExcelFixed.LastColumnWins | backend/upload-excel-fixed.js:138-164 | after the column loop, which stops at the shorter of the header row and the data row, a field holds the value of the last column that stores it, and its initial value when none does |
| UploadExcelFixed.FillProduct | backend/upload-excel-fixed.js:128-164 | the column loop computes the filled product |
| UploadExcelFixed.PadStart | backend/upload-excel-fixed.js:173 | `padStart` gives the longer of the string's length and the width |
| UploadExcelFixed.CompleteFixes | backend/upload-excel-fixed.js:166-179 | after the defaults, the name, SKU and category are never blank; a non-blank one is kept as it was, and the other fields are untouched |
| UploadExcelFixed.DefaultSkuNumber | backend/upload-excel-fixed.js:173 | a default SKU is `EXCEL` followed by at least three digits whose value is the row's position counted from 1 |
| UploadExcelFixed.DefaultSkusDistinct | backend/upload-excel-fixed.js:173 | two rows of a sheet never get the same default SKU |
| UploadExcelFixed.InsertBalanced | backend/upload-excel-fixed.js:182-193 | the INSERT has seven placeholders and binds seven parameters |
| UploadExcelFixed.ImportRow | backend/upload-excel-fixed.js:126-208 | one row issues its INSERT and counts as inserted, or as an error when the insert throws |
| UploadExcelFixed.ImportRows | backend/upload-excel-fixed.js:115-209 | the row loop issues every kept row's INSERT in order and tallies the replies |
| UploadExcelFixed.RepliesAccounted | backend/upload-excel-fixed.js:195-203 | every issued INSERT is counted exactly once, and the error count is the number of issued inserts that failed |
| UploadExcelFixed.RowsAccounted | backend/upload-excel-fixed.js:118-209 | every kept row issues exactly its own INSERT, the k-th row's statement uses row number k, and every row is counted once, the errors being the failed inserts |
| UploadExcelFixed.ImportSheet | backend/upload-excel-fixed.js:40-209 | one sheet: an empty sheet or one without kept rows issues nothing; otherwise the table is cleared and, unless the clear throws, every kept row is inserted |
| UploadExcelFixed.ImportSheets | backend/upload-excel-fixed.js:37-219 | the sheet loop, which ends at a failing clear or after the first sheet that inserted a row |
| UploadExcelFixed.FirstStop | backend/upload-excel-fixed.js:216-218 | the loop stops at the first sheet whose clear failed or that inserted a row, and at no sheet before it |
| UploadExcelFixed.LaterSheetsIgnored | backend/upload-excel-fixed.js:216-218 | sheets after the one where the loop stops change nothing |
| UploadExcelFixed.InsertedFromOneSheet | backend/upload-excel-fixed.js:215-218 | every inserted row comes from the sheet where the loop stopped, and the run inserts nothing exactly when no sheet stops it |
| UploadExcelFixed.Upload | backend/upload-excel-fixed.js:15-231 | describe the table, then run the sheet loop; a throw outside the row `try` ends the run in the outer `catch` |
| UploadExcelFixed.SheetOrder | backend/upload-excel-fixed.js:43-62 | a sheet with nothing to load issues nothing; a loadable sheet starts with the clear, and after a successful clear issues one statement per kept row |

## Left out

- Connecting, the connection pool, `dotenv`, console output, `connection.end()` and the reading of the Excel file are not modelled. The workbook is a parameter: its sheets as `sheet_to_json(..., { header: 1 })` returns them.
- `testConnection`, `createDatabase`, `initializeSampleData` and `close` in `config/database.js` (lines 23-68 and 150-254) set up a development database. They are not part of this model.
- The Express wiring of `server.js` (middleware, CORS, body parsing, the `/health` route, `startServer` and the signal handlers) is left out. Each route handler is modelled as an operation on its parsed request. Route matching is not modelled either. `PUT /:tableName/bulk` and `DELETE /:tableName/bulk` (data.js lines 94 and 140) are taken as the bulk routes, even though Express matches `/:tableName/:id` first (lines 65 and 126), so in the running server those two bulk routes are never reached.
- `mysql.escapeId` is a function parameter of the rendering. Only the property that it adds no `?` is assumed of it, through the predicates that require it.
- The Joi schemas are modelled by the rules they state, with Joi's default conversion of strings to numbers and booleans. Joi's own message texts are modelled as an opaque first message. The handlers read the unconverted body, so a flag sent as the string `false` is truthy there.
- Validation.ValidLength: a numeral in exponent notation (such as `1e1`) is rejected by the model. Joi converts it and accepts it when its value is an integer in range.
- Validation.ValidateTableCreation, Validation.ValidateTableUpdate, Tables.CreateTable, Tables.UpdateTable: inherit the gap of `Validation.ValidLength`. A column whose `length` is written in exponent notation is answered 400 by the model and is outside the handlers' preconditions, while the source accepts it and builds the definition with that text.
- CSV and XLSX serialisation in the report export is not modelled. The model fixes the chosen format, the content type and the rows.
- Floating point is left out. Numbers are integers, and `parseFloat` keeps only the integer part of its text, so `Excel.Converted` and `UploadExcelFixed.StoreField` state prices as integers. The relevance scores of the search (search.js lines 123-153) are exact rationals, where JavaScript computes doubles. The two can round differently, so a tie or an order between nearly equal scores may differ.
- The `ORDER BY t.table_name` of the table listing (database.js line 110) is modelled as a sort by code point. MySQL compares them under the column's collation, which is usually case-insensitive, so the listing's order can differ for names that differ in case or accents.
- `toLowerCase` and `toUpperCase` map ASCII letters only. Dafny characters are Unicode scalar values, while JavaScript regular expressions and string indices act on UTF-16 code units. The two agree for the Arabic headers and the ASCII text the code matches on.
- The stray text before `const XLSX` on line 1 of `upload-to-remote.js` would make that file a syntax error. The model reads the file as if it were not there.
- The database oracle is a function, so a statement always gets the same answer, whenever it is sent. Changes of state between statements (a row inserted by one statement, counted by a later one) are not tied to the answers.
- UploadFinal.ClearIfPopulated: a count that arrives as a numeric string (as some drivers return `COUNT(*)` results) is taken as not positive. JavaScript would compare the string numerically.
- The final `countResult[0].total` of the upload scripts is only console output. The `TypeError` it throws on an empty result is not modelled.
- The `CREATE TABLE` and `ALTER TABLE` texts of the upload scripts are modelled with their whitespace normalised.
- The header lookup `headerMapping[header]` also finds keys inherited from `Object.prototype` (for example a header named `constructor`). The model looks up only the mapping's own keys.
- `upload-excel-fixed.js` prints its counters per sheet and keeps no totals. The model's outcome adds up the counters of the sheets it visited, which can only be the sheets up to the one where the loop stopped.
- Data.List: query values are modelled as strings. Express parses a repeated key (`?sortOrder=a&sortOrder=b`) into an array. `sortOrder.toUpperCase()` on line 16 of data.js then throws, and the handler answers 500. A repeated `sortBy`, `limit` or `offset` also reaches `escapeId` and `parseInt` as an array. The model does not cover these paths.
- Search.GlobalSearch: query values are modelled as strings. A repeated `q` key arrives as an array. Every table whose search returns rows then throws at `query.toLowerCase()` (search.js line 125) and is skipped by the per-table catch. The model scores the rows against the joined text instead.
- Reports.Export: the sheet-name and header checks belong to SheetJS and to Node's HTTP layer, which are not part of this model; only their length, character and Latin-1 rules and their messages are modelled. Lengths are counted in characters, where SheetJS counts UTF-16 code units. Query values are modelled as strings. A repeated `format` key arrives as an array, `format.toLowerCase()` (reports.js line 175) throws, and the handler answers 500. The model does not cover that path.
- Reports.ListUseOf: JavaScript converts a non-array object's `length` to a number for `> 0`. An object whose `length` is a positive numeric string or `true` therefore passes the test and then throws at `map`, which answers 500. The model counts only a number `length` as positive, so it skips such an object.
- Reports.Names: `escapeId` escapes an array element element by element and joins the results with `, `. The model escapes the element's `String` form as one identifier.
- Reports.Generate: inherits the gaps of `Reports.ListUseOf` and `Reports.Names` for the `columns`, `filters`, `groupBy` and `orderBy` fields.
- Data.BulkUpdate: requires that no element of the update list is `null` or `undefined`. In the source, reading `record.id` of such an element throws a `TypeError` inside the transaction callback, which rolls back and answers 500. The model does not cover that path.
- Concurrency between requests, and between a transaction and other queries on the pool, is not modelled.
- The frontend, `config/database-backup.js`, `db-selector.js`, `mock-server.js`, `setup-database.js` and the connection test scripts are not part of this model. For `upload-adaptive.js` and `upload-final.js` the database that `selectWorkingDatabase` picks is simply the database the oracle answers for.
