/** The sheet-by-sheet, row-by-row import shared by the four upload scripts that trim their
    header row (backend/upload-to-remote.js, upload-final.js, upload-adaptive.js and
    upload-excel-final.js). Each sheet with at least one data row is imported (after clearing
    the table, in the script that clears per sheet); each data row fills `rowData` from the
    headers, nameless rows are skipped, and every other row is inserted with a statement of
    its own. A failed insert is counted as an error and the loop goes on with the next row. */
module SheetImport {
  import opened Js
  import opened Sql
  import opened Db
  import opened Excel

  // ---------------------------------------------------------------------
  // The INSERT statement
  // ---------------------------------------------------------------------

  /** One parameter of the INSERT: `rowData.column`, or `rowData.column || fallback`. */
  datatype Arg = Arg(column: string, fallback: Option<Value>)

  /** What differs between the scripts' row loops: the header mapping, the `switch`, the
      `rowData` literal, the INSERT's parameters (one per listed column, in order), and
      whether the statement is `INSERT IGNORE` counting a row only when `affectedRows > 0`. */
  datatype Importer = Importer(mapping: Mapping, sw: Switch, defaults: Fields, args: seq<Arg>, ignore: bool)

  function Columns(args: seq<Arg>): (r: seq<string>)
    ensures |r| == |args|
    ensures forall i :: 0 <= i < |args| ==> r[i] == args[i].column
  {
    seq(|args|, i requires 0 <= i < |args| => args[i].column)
  }

  function InsertHead(imp: Importer): string {
    (if imp.ignore then "INSERT IGNORE INTO products (" else "INSERT INTO products (")
      + Join(Columns(imp.args), ", ") + ") VALUES ("
  }

  /** `INSERT [IGNORE] INTO products (c1, ..., cn) VALUES (?, ..., ?)` */
  function InsertSql(imp: Importer): Sql {
    [Text(InsertHead(imp))] + JoinSql(ParamList(|imp.args|), Comma) + [Text(")")]
  }

  function ArgValue(a: Arg, fields: Fields): Value {
    match a.fallback
    case None => Get(fields, a.column)
    case Some(d) => Or(Get(fields, a.column), d)
  }

  function InsertParams(args: seq<Arg>, fields: Fields): (r: seq<Value>)
    ensures |r| == |args|
    ensures forall i :: 0 <= i < |args| ==> r[i] == ArgValue(args[i], fields)
  {
    seq(|args|, i requires 0 <= i < |args| => ArgValue(args[i], fields))
  }

  function InsertStmt(imp: Importer, fields: Fields): Stmt {
    Stmt(InsertSql(imp), InsertParams(imp.args, fields))
  }

  /** The INSERT has one placeholder per listed column and one parameter for each. */
  lemma InsertBalanced(imp: Importer, fields: Fields)
    ensures Placeholders(InsertStmt(imp, fields).sql) == |imp.args|
    ensures Balanced(InsertStmt(imp, fields))
  {
    Append3([Text(InsertHead(imp))], JoinSql(ParamList(|imp.args|), Comma), [Text(")")]);
    Literal(InsertHead(imp));
    Literal(")");
    ParamListPlaceholderCount(|imp.args|);
  }

  /** A field the INSERT does not list has no effect on the statement: whatever a row stores
      under it is never written to the table. */
  lemma InsertIgnoresField(imp: Importer, fields: Fields, k: string, v: Value)
    requires k !in Columns(imp.args)
    ensures InsertStmt(imp, Put(fields, k, v)) == InsertStmt(imp, fields)
  {
    var p, q := InsertParams(imp.args, Put(fields, k, v)), InsertParams(imp.args, fields);
    forall i | 0 <= i < |imp.args| ensures p[i] == q[i] {
      assert Columns(imp.args)[i] == imp.args[i].column;
    }
  }

  // ---------------------------------------------------------------------
  // One row
  // ---------------------------------------------------------------------

  const UnknownProduct := "Unknown Product"

  /** `!rowData.name || rowData.name === 'Unknown Product'`: the row is skipped. */
  predicate Nameless(fields: Fields) {
    !Truthy(Get(fields, "name")) || Get(fields, "name") == Str(UnknownProduct)
  }

  function RowFields(imp: Importer, headers: seq<string>, row: Row): Fields {
    Filled(imp.mapping, imp.sw, headers, row, imp.defaults, |headers|)
  }

  /** The statements one data row issues: none when it is skipped, its INSERT otherwise. */
  function RowEvents(imp: Importer, headers: seq<string>, row: Row): seq<Event> {
    var fields := RowFields(imp, headers, row);
    if Nameless(fields) then [] else [Execute(InsertStmt(imp, fields))]
  }

  /** Skipped rows are not counted; `Ignored` is an `INSERT IGNORE` that changed no row. */
  datatype RowOutcome = Skipped | Inserted | Ignored | Errored

  /** Whether a reply that did not fail counts as an inserted row. */
  predicate Counted(imp: Importer, reply: Reply) {
    !imp.ignore || (reply.Done? && reply.affectedRows > 0)
  }

  function RowResult(imp: Importer, headers: seq<string>, row: Row, db: Stmt -> Reply): RowOutcome {
    var fields := RowFields(imp, headers, row);
    if Nameless(fields) then Skipped
    else
      var reply := db(InsertStmt(imp, fields));
      if reply.Failed? then Errored else if Counted(imp, reply) then Inserted else Ignored
  }

  /** One iteration of the per-row loop, its `try` and its `catch`. */
  method ImportRow(d: Database, imp: Importer, headers: seq<string>, row: Row, db: Stmt -> Reply)
    returns (outcome: RowOutcome)
    modifies d
    ensures d.log == old(d.log) + RowEvents(imp, headers, row)
    ensures outcome == RowResult(imp, headers, row, db)
  {
    var rowData := FillRow(imp.mapping, imp.sw, headers, row, imp.defaults);
    if Nameless(rowData) {
      return Skipped;
    }
    var reply := d.Query(InsertStmt(imp, rowData), db);
    if reply.Failed? {
      outcome := Errored;
    } else if Counted(imp, reply) {
      outcome := Inserted;
    } else {
      outcome := Ignored;
    }
  }

  // ---------------------------------------------------------------------
  // The rows of one sheet
  // ---------------------------------------------------------------------

  /** `sheetInserted` and `sheetErrors` (and the totals they are added to). */
  datatype Counts = Counts(inserted: nat, errors: nat)

  function Tally(c: Counts, o: RowOutcome): Counts {
    match o
    case Inserted => Counts(c.inserted + 1, c.errors)
    case Errored => Counts(c.inserted, c.errors + 1)
    case _ => c
  }

  function RowsCounts(imp: Importer, headers: seq<string>, rows: seq<Row>, db: Stmt -> Reply): Counts {
    if rows == [] then Counts(0, 0)
    else Tally(RowsCounts(imp, headers, rows[..|rows| - 1], db), RowResult(imp, headers, rows[|rows| - 1], db))
  }

  function RowsEvents(imp: Importer, headers: seq<string>, rows: seq<Row>): seq<Event> {
    if rows == [] then []
    else RowsEvents(imp, headers, rows[..|rows| - 1]) + RowEvents(imp, headers, rows[|rows| - 1])
  }

  /** The `for` loop over a sheet's data rows. */
  method ImportRows(d: Database, imp: Importer, headers: seq<string>, rows: seq<Row>, db: Stmt -> Reply)
    returns (c: Counts)
    modifies d
    ensures d.log == old(d.log) + RowsEvents(imp, headers, rows)
    ensures c == RowsCounts(imp, headers, rows, db)
  {
    c := Counts(0, 0);
    var i := 0;
    while i < |rows|
      invariant 0 <= i <= |rows|
      invariant d.log == old(d.log) + RowsEvents(imp, headers, rows[..i])
      invariant c == RowsCounts(imp, headers, rows[..i], db)
    {
      ghost var before := d.log;
      var o := ImportRow(d, imp, headers, rows[i], db);
      c := Tally(c, o);
      assert rows[..i + 1][..i] == rows[..i];
      LogAppend(old(d.log), RowsEvents(imp, headers, rows[..i]), RowEvents(imp, headers, rows[i]));
      i := i + 1;
    }
    assert rows[..i] == rows;
  }

  /** The number of data rows that are not skipped. */
  function NamedRows(imp: Importer, headers: seq<string>, rows: seq<Row>): nat {
    if rows == [] then 0
    else
      var named := if Nameless(RowFields(imp, headers, rows[|rows| - 1])) then 0 else 1;
      NamedRows(imp, headers, rows[..|rows| - 1]) + named
  }

  /** The number of rows whose `INSERT IGNORE` went through without changing a row. */
  function IgnoredRows(imp: Importer, headers: seq<string>, rows: seq<Row>, db: Stmt -> Reply): nat {
    if rows == [] then 0
    else
      var ignored := if RowResult(imp, headers, rows[|rows| - 1], db) == Ignored then 1 else 0;
      IgnoredRows(imp, headers, rows[..|rows| - 1], db) + ignored
  }

  /** A failing insert does not end the loop: every named row issues exactly one statement,
      and each is counted once, as an insertion, as an error or, for `INSERT IGNORE`, as a
      row that changed nothing and is in neither counter. */
  lemma {:induction false} RowsAccounted(imp: Importer, headers: seq<string>, rows: seq<Row>, db: Stmt -> Reply)
    ensures |RowsEvents(imp, headers, rows)| == NamedRows(imp, headers, rows)
    ensures RowsCounts(imp, headers, rows, db).inserted + RowsCounts(imp, headers, rows, db).errors
            + IgnoredRows(imp, headers, rows, db) == NamedRows(imp, headers, rows)
    ensures !imp.ignore ==> IgnoredRows(imp, headers, rows, db) == 0
  {
    if rows != [] {
      RowsAccounted(imp, headers, rows[..|rows| - 1], db);
    }
  }

  /** Failed replies among a sequence of statements. */
  function Failures(es: seq<Event>, db: Stmt -> Reply): nat {
    if es == [] then 0
    else Failures(es[..|es| - 1], db) + (if es[|es| - 1].Execute? && db(es[|es| - 1].stmt).Failed? then 1 else 0)
  }

  /** The error counter is the number of inserts whose reply was an error. */
  lemma {:induction false} ErrorsAreFailures(imp: Importer, headers: seq<string>, rows: seq<Row>, db: Stmt -> Reply)
    ensures RowsCounts(imp, headers, rows, db).errors == Failures(RowsEvents(imp, headers, rows), db)
  {
    if rows != [] {
      var init, last := rows[..|rows| - 1], rows[|rows| - 1];
      ErrorsAreFailures(imp, headers, init, db);
      FailuresAppend(RowsEvents(imp, headers, init), RowEvents(imp, headers, last), db);
      RowErrors(imp, headers, last, db, RowsCounts(imp, headers, init, db));
    }
  }

  lemma FailuresAppend(es: seq<Event>, e: seq<Event>, db: Stmt -> Reply)
    requires |e| <= 1
    ensures Failures(es + e, db) == Failures(es, db) + Failures(e, db)
  {
    if e != [] {
      assert (es + e)[..|es|] == es;
      assert e[..0] == [];
    } else {
      assert es + e == es;
    }
  }

  /** A row adds one error exactly when it issues an insert that fails. */
  lemma RowErrors(imp: Importer, headers: seq<string>, row: Row, db: Stmt -> Reply, c: Counts)
    ensures |RowEvents(imp, headers, row)| <= 1
    ensures Tally(c, RowResult(imp, headers, row, db)).errors == c.errors + Failures(RowEvents(imp, headers, row), db)
  {
    var e := RowEvents(imp, headers, row);
    if e != [] {
      assert e[..0] == [];
    }
  }

  /** Every statement of the row loop is that script's INSERT. */
  lemma {:induction false} RowsEventsAreInserts(imp: Importer, headers: seq<string>, rows: seq<Row>)
    ensures forall i :: 0 <= i < |RowsEvents(imp, headers, rows)| ==>
      RowsEvents(imp, headers, rows)[i].Execute? && RowsEvents(imp, headers, rows)[i].stmt.sql == InsertSql(imp)
  {
    if rows != [] {
      RowsEventsAreInserts(imp, headers, rows[..|rows| - 1]);
    }
  }

  // ---------------------------------------------------------------------
  // The sheets
  // ---------------------------------------------------------------------

  const ClearStmt := Stmt([Text("DELETE FROM products")], [])

  /** A sheet is imported when it has rows and at least one data row after the header row. */
  predicate HasData(s: Sheet) {
    s.rows != [] && DataRows(s.rows[1..]) != []
  }

  function SheetHeaders(s: Sheet): seq<string>
    requires s.rows != []
  {
    TrimmedHeaders(s.rows[0])
  }

  function SheetRows(s: Sheet): seq<Row>
    requires s.rows != []
  {
    DataRows(s.rows[1..])
  }

  /** How a script ends: with its totals, or with the error that its outer `catch` logs. */
  datatype Outcome = Completed(totals: Counts) | Halted(message: string)

  datatype Run = Run(events: seq<Event>, outcome: Outcome)

  function AddCounts(a: Counts, b: Counts): Counts {
    Counts(a.inserted + b.inserted, a.errors + b.errors)
  }

  /** The statements of one sheet; `clearEach` is the per-sheet `DELETE FROM products`. */
  function SheetEvents(imp: Importer, s: Sheet, clearEach: bool, db: Stmt -> Reply): seq<Event> {
    if !HasData(s) then []
    else if clearEach then
      [Execute(ClearStmt)] + (if db(ClearStmt).Failed? then [] else RowsEvents(imp, SheetHeaders(s), SheetRows(s)))
    else RowsEvents(imp, SheetHeaders(s), SheetRows(s))
  }

  function SheetOutcome(imp: Importer, s: Sheet, clearEach: bool, db: Stmt -> Reply, totals: Counts): Outcome {
    if !HasData(s) then Completed(totals)
    else if clearEach && db(ClearStmt).Failed? then Halted(db(ClearStmt).err.message)
    else Completed(AddCounts(totals, RowsCounts(imp, SheetHeaders(s), SheetRows(s), db)))
  }

  /** The loop over the workbook's sheets; an error outside the row `try` ends the script. */
  function SheetsRun(imp: Importer, sheets: seq<Sheet>, clearEach: bool, db: Stmt -> Reply): Run {
    if sheets == [] then Run([], Completed(Counts(0, 0)))
    else
      var pre := SheetsRun(imp, sheets[..|sheets| - 1], clearEach, db);
      var s := sheets[|sheets| - 1];
      if pre.outcome.Halted? then pre
      else Run(pre.events + SheetEvents(imp, s, clearEach, db), SheetOutcome(imp, s, clearEach, db, pre.outcome.totals))
  }

  /** One sheet: the empty-sheet and no-data-rows checks, the optional clear, the rows. */
  method ImportSheet(d: Database, imp: Importer, s: Sheet, clearEach: bool, db: Stmt -> Reply, totals: Counts)
    returns (outcome: Outcome)
    modifies d
    ensures d.log == old(d.log) + SheetEvents(imp, s, clearEach, db)
    ensures outcome == SheetOutcome(imp, s, clearEach, db, totals)
  {
    if s.rows == [] {
      return Completed(totals);
    }
    var headers := TrimmedHeaders(s.rows[0]);
    var dataRows := DataRows(s.rows[1..]);
    if dataRows == [] {
      return Completed(totals);
    }
    if clearEach {
      var cleared := d.Query(ClearStmt, db);
      if cleared.Failed? {
        return Halted(cleared.err.message);
      }
    }
    ghost var mid := d.log;
    var c := ImportRows(d, imp, headers, dataRows, db);
    outcome := Completed(AddCounts(totals, c));
    if clearEach {
      LogAppend(old(d.log), [Execute(ClearStmt)], RowsEvents(imp, headers, dataRows));
    }
  }

  /** Once the run has stopped, later sheets change nothing. */
  lemma {:induction false} HaltedStays(imp: Importer, sheets: seq<Sheet>, clearEach: bool, db: Stmt -> Reply, i: nat)
    requires i <= |sheets|
    requires SheetsRun(imp, sheets[..i], clearEach, db).outcome.Halted?
    ensures SheetsRun(imp, sheets, clearEach, db) == SheetsRun(imp, sheets[..i], clearEach, db)
  {
    if i < |sheets| {
      assert sheets[..|sheets| - 1][..i] == sheets[..i];
      HaltedStays(imp, sheets[..|sheets| - 1], clearEach, db, i);
    } else {
      assert sheets[..i] == sheets;
    }
  }

  lemma SheetsRunStep(imp: Importer, sheets: seq<Sheet>, clearEach: bool, db: Stmt -> Reply, i: nat)
    requires i < |sheets|
    requires SheetsRun(imp, sheets[..i], clearEach, db).outcome.Completed?
    ensures var pre := SheetsRun(imp, sheets[..i], clearEach, db);
      SheetsRun(imp, sheets[..i + 1], clearEach, db)
      == Run(pre.events + SheetEvents(imp, sheets[i], clearEach, db),
             SheetOutcome(imp, sheets[i], clearEach, db, pre.outcome.totals))
  {
    assert sheets[..i + 1][..i] == sheets[..i];
  }

  /** The `for ... of workbook.SheetNames` loop. */
  method ImportSheets(d: Database, imp: Importer, sheets: seq<Sheet>, clearEach: bool, db: Stmt -> Reply)
    returns (outcome: Outcome)
    modifies d
    ensures d.log == old(d.log) + SheetsRun(imp, sheets, clearEach, db).events
    ensures outcome == SheetsRun(imp, sheets, clearEach, db).outcome
  {
    outcome := Completed(Counts(0, 0));
    var i := 0;
    while i < |sheets|
      invariant 0 <= i <= |sheets|
      invariant d.log == old(d.log) + SheetsRun(imp, sheets[..i], clearEach, db).events
      invariant outcome == SheetsRun(imp, sheets[..i], clearEach, db).outcome
      invariant outcome.Completed?
    {
      var pre := SheetsRun(imp, sheets[..i], clearEach, db);
      SheetsRunStep(imp, sheets, clearEach, db, i);
      outcome := ImportSheet(d, imp, sheets[i], clearEach, db, outcome.totals);
      LogAppend(old(d.log), pre.events, SheetEvents(imp, sheets[i], clearEach, db));
      i := i + 1;
      if outcome.Halted? {
        HaltedStays(imp, sheets, clearEach, db, i);
        return;
      }
    }
    assert sheets[..i] == sheets;
  }

  /** The per-sheet counters of the sheets that are imported. */
  function SheetCounts(imp: Importer, s: Sheet, db: Stmt -> Reply): Counts {
    if HasData(s) then RowsCounts(imp, SheetHeaders(s), SheetRows(s), db) else Counts(0, 0)
  }

  function SumCounts(imp: Importer, sheets: seq<Sheet>, db: Stmt -> Reply): Counts {
    if sheets == [] then Counts(0, 0)
    else AddCounts(SumCounts(imp, sheets[..|sheets| - 1], db), SheetCounts(imp, sheets[|sheets| - 1], db))
  }

  /** `totalInserted += sheetInserted; totalErrors += sheetErrors`: a run that completes
      reports the per-sheet counters added up. */
  lemma {:induction false} TotalsAreSums(imp: Importer, sheets: seq<Sheet>, clearEach: bool, db: Stmt -> Reply)
    requires SheetsRun(imp, sheets, clearEach, db).outcome.Completed?
    ensures SheetsRun(imp, sheets, clearEach, db).outcome.totals == SumCounts(imp, sheets, db)
  {
    if sheets != [] {
      var init := sheets[..|sheets| - 1];
      if SheetsRun(imp, init, clearEach, db).outcome.Halted? {
        assert false;
      }
      TotalsAreSums(imp, init, clearEach, db);
    }
  }

  /** Without the per-sheet clear nothing in the loop can stop the run, and the statements
      are the row inserts of each imported sheet in turn. */
  lemma {:induction false} WithoutClearNeverHalts(imp: Importer, sheets: seq<Sheet>, db: Stmt -> Reply)
    ensures SheetsRun(imp, sheets, false, db).outcome.Completed?
    ensures SheetsRun(imp, sheets, false, db).events == SheetsInserts(imp, sheets)
  {
    if sheets != [] {
      WithoutClearNeverHalts(imp, sheets[..|sheets| - 1], db);
    }
  }

  /** With a clear that succeeds, nothing in the loop stops the run either. */
  lemma {:induction false} ClearingNeverHalts(imp: Importer, sheets: seq<Sheet>, db: Stmt -> Reply)
    requires !db(ClearStmt).Failed?
    ensures SheetsRun(imp, sheets, true, db).outcome.Completed?
  {
    if sheets != [] {
      ClearingNeverHalts(imp, sheets[..|sheets| - 1], db);
    }
  }

  /** With a clear that fails, the run stops at the first sheet with data rows, having
      issued only that clear; it runs to the end, issuing nothing, when no sheet has any. */
  lemma {:induction false} FailedClearSheets(imp: Importer, sheets: seq<Sheet>, db: Stmt -> Reply)
    requires db(ClearStmt).Failed?
    ensures SheetsRun(imp, sheets, true, db).events == if LastImported(sheets) > 0 then [Execute(ClearStmt)] else []
    ensures SheetsRun(imp, sheets, true, db).outcome.Halted? <==> LastImported(sheets) > 0
  {
    if sheets != [] {
      FailedClearSheets(imp, sheets[..|sheets| - 1], db);
    }
  }

  function SheetsInserts(imp: Importer, sheets: seq<Sheet>): seq<Event> {
    if sheets == [] then []
    else
      var s := sheets[|sheets| - 1];
      SheetsInserts(imp, sheets[..|sheets| - 1])
        + (if HasData(s) then RowsEvents(imp, SheetHeaders(s), SheetRows(s)) else [])
  }

  /** The shape of a script that runs one statement, then the sheet loop with the per-sheet
      clear, and nothing after it. */
  lemma ClearEachScript(a: Stmt, imp: Importer, sheets: seq<Sheet>, db: Stmt -> Reply)
    requires !db(a).Failed? && !db(ClearStmt).Failed?
    requires LastImported(sheets) > 0
    ensures var j := LastImported(sheets);
      var s := sheets[j - 1];
      ScriptRun(Script([a], imp, true, []), sheets, db).events
      == [Execute(a)] + SheetsRun(imp, sheets[..j - 1], true, db).events + [Execute(ClearStmt)]
         + RowsEvents(imp, SheetHeaders(s), SheetRows(s))
    ensures var j := LastImported(sheets);
      var s := sheets[j - 1];
      Execute(ClearStmt) !in RowsEvents(imp, SheetHeaders(s), SheetRows(s))
  {
    var j := LastImported(sheets);
    var s := sheets[j - 1];
    ChainedOne(a, db);
    ClearingNeverHalts(imp, sheets, db);
    ClearEachKeepsLastSheet(imp, sheets, db);
    var pre := SheetsRun(imp, sheets[..j - 1], true, db).events;
    var rs := RowsEvents(imp, SheetHeaders(s), SheetRows(s));
    assert Chained([], db) == Chain([], None);
    CompletedScript(Script([a], imp, true, []), sheets, db);
    Concat3After([Execute(a)], pre, [Execute(ClearStmt)], rs);
  }

  /** A script whose statements before and after the loop succeed and whose loop completes
      issues the three groups of statements in order. */
  lemma CompletedScript(sc: Script, sheets: seq<Sheet>, db: Stmt -> Reply)
    requires Chained(sc.prologue, db).err.None? && Chained(sc.epilogue, db).err.None?
    requires SheetsRun(sc.imp, sheets, sc.clearEach, db).outcome.Completed?
    ensures ScriptRun(sc, sheets, db).events
         == Chained(sc.prologue, db).events + SheetsRun(sc.imp, sheets, sc.clearEach, db).events
            + Chained(sc.epilogue, db).events
  {
  }

  lemma Concat3After<T>(p: seq<T>, a: seq<T>, b: seq<T>, c: seq<T>)
    ensures p + (a + b + c) + [] == p + a + b + c
  {
  }

  /** One past the index of the last sheet that is imported; 0 when there is none. */
  function LastImported(sheets: seq<Sheet>): (j: nat)
    ensures j <= |sheets|
    ensures j > 0 ==> HasData(sheets[j - 1])
  {
    if sheets == [] then 0
    else if HasData(sheets[|sheets| - 1]) then |sheets|
    else LastImported(sheets[..|sheets| - 1])
  }

  /** No sheet after the last imported one has data rows. */
  lemma {:induction false} LastImportedSpec(sheets: seq<Sheet>)
    ensures forall k :: LastImported(sheets) <= k < |sheets| ==> !HasData(sheets[k])
  {
    if sheets != [] && !HasData(sheets[|sheets| - 1]) {
      var init := sheets[..|sheets| - 1];
      LastImportedSpec(init);
      forall k | LastImported(sheets) <= k < |sheets| ensures !HasData(sheets[k]) {
        if k < |init| {
          assert sheets[k] == init[k];
        }
      }
    }
  }

  /** Sheets with nothing to import change nothing. */
  lemma {:induction false} TrailingEmptySheets(imp: Importer, sheets: seq<Sheet>, clearEach: bool, db: Stmt -> Reply, j: nat)
    requires j <= |sheets|
    requires forall k :: j <= k < |sheets| ==> !HasData(sheets[k])
    ensures SheetsRun(imp, sheets, clearEach, db) == SheetsRun(imp, sheets[..j], clearEach, db)
  {
    if j < |sheets| {
      var init := sheets[..|sheets| - 1];
      assert forall k :: j <= k < |init| ==> init[k] == sheets[k];
      TrailingEmptySheets(imp, init, clearEach, db, j);
      assert init[..j] == sheets[..j];
    } else {
      assert sheets[..j] == sheets;
    }
  }

  /** With the clear inside the sheet loop, the last statements the run issues are the
      `DELETE` of the last imported sheet and that sheet's inserts, and none of those inserts
      is a `DELETE`: only the last imported sheet's rows end up in the table. */
  lemma ClearEachKeepsLastSheet(imp: Importer, sheets: seq<Sheet>, db: Stmt -> Reply)
    requires !db(ClearStmt).Failed?
    requires SheetsRun(imp, sheets, true, db).outcome.Completed?
    requires LastImported(sheets) > 0
    ensures var j := LastImported(sheets);
      var s := sheets[j - 1];
      SheetsRun(imp, sheets, true, db).events
      == SheetsRun(imp, sheets[..j - 1], true, db).events + [Execute(ClearStmt)]
         + RowsEvents(imp, SheetHeaders(s), SheetRows(s))
    ensures var j := LastImported(sheets);
      var s := sheets[j - 1];
      Execute(ClearStmt) !in RowsEvents(imp, SheetHeaders(s), SheetRows(s))
  {
    var j := LastImported(sheets);
    var s := sheets[j - 1];
    LastImportedSpec(sheets);
    TrailingEmptySheets(imp, sheets, true, db, j);
    var short := sheets[..j];
    assert short[..j - 1] == sheets[..j - 1];
    assert short[j - 1] == s;
    var pre := SheetsRun(imp, sheets[..j - 1], true, db);
    var rs := RowsEvents(imp, SheetHeaders(s), SheetRows(s));
    LogAppend(pre.events, [Execute(ClearStmt)], rs);
    RowsEventsAreInserts(imp, SheetHeaders(s), SheetRows(s));
    InsertIsNotClear(imp);
  }

  lemma InsertIsNotClear(imp: Importer)
    ensures InsertSql(imp) != ClearStmt.sql
  {
    ParamListPlaceholderCount(|imp.args|);
    InsertBalanced(imp, []);
    Literal("DELETE FROM products");
    if |imp.args| == 0 {
      var h := InsertHead(imp);
      assert InsertSql(imp)[0] == Text(h);
      assert h[0] == 'I';
    }
  }

  // ---------------------------------------------------------------------
  // Statements awaited in order, and a whole script
  // ---------------------------------------------------------------------

  /** Statements awaited one after another; the first that fails throws, and the rest are
      not issued. `err` is that failure's message. */
  datatype Chain = Chain(events: seq<Event>, err: Option<string>)

  function Chained(stmts: seq<Stmt>, db: Stmt -> Reply): Chain {
    if stmts == [] then Chain([], None)
    else
      var pre := Chained(stmts[..|stmts| - 1], db);
      var st := stmts[|stmts| - 1];
      if pre.err.Some? then pre
      else Chain(pre.events + [Execute(st)], if db(st).Failed? then Some(db(st).err.message) else None)
  }

  /** The statements a chain issues are a prefix of the list, every one before the last has
      succeeded, and the chain reports an error exactly when the last one it issued failed. */
  lemma {:induction false} ChainedSpec(stmts: seq<Stmt>, db: Stmt -> Reply)
    ensures var c := Chained(stmts, db);
      |c.events| <= |stmts|
      && (forall i :: 0 <= i < |c.events| ==> c.events[i] == Execute(stmts[i]))
      && (forall i :: 0 <= i < |c.events| - 1 ==> !db(stmts[i]).Failed?)
      && (c.err.None? <==> |c.events| == |stmts| && forall i :: 0 <= i < |stmts| ==> !db(stmts[i]).Failed?)
      && (c.err.Some? ==> c.events != [] && db(stmts[|c.events| - 1]).Failed?
                          && c.err == Some(db(stmts[|c.events| - 1]).err.message))
  {
    if stmts != [] {
      var init := stmts[..|stmts| - 1];
      ChainedSpec(init, db);
      assert forall i :: 0 <= i < |init| ==> init[i] == stmts[i];
    }
  }

  method RunChain(d: Database, stmts: seq<Stmt>, db: Stmt -> Reply) returns (err: Option<string>)
    modifies d
    ensures d.log == old(d.log) + Chained(stmts, db).events
    ensures err == Chained(stmts, db).err
  {
    err := None;
    var i := 0;
    while i < |stmts|
      invariant 0 <= i <= |stmts|
      invariant d.log == old(d.log) + Chained(stmts[..i], db).events
      invariant err == Chained(stmts[..i], db).err
      invariant err.None?
    {
      ghost var pre := Chained(stmts[..i], db);
      assert stmts[..i + 1][..i] == stmts[..i];
      var reply := d.Query(stmts[i], db);
      LogAppend(old(d.log), pre.events, [Execute(stmts[i])]);
      i := i + 1;
      if reply.Failed? {
        err := Some(reply.err.message);
        ChainHaltedStays(stmts, db, i);
        return;
      }
    }
    assert stmts[..i] == stmts;
  }

  lemma {:induction false} ChainHaltedStays(stmts: seq<Stmt>, db: Stmt -> Reply, i: nat)
    requires i <= |stmts|
    requires Chained(stmts[..i], db).err.Some?
    ensures Chained(stmts, db) == Chained(stmts[..i], db)
  {
    if i < |stmts| {
      assert stmts[..|stmts| - 1][..i] == stmts[..i];
      ChainHaltedStays(stmts[..|stmts| - 1], db, i);
    } else {
      assert stmts[..i] == stmts;
    }
  }

  /** A script of this family: statements before the sheet loop, the loop, statements after. */
  datatype Script = Script(prologue: seq<Stmt>, imp: Importer, clearEach: bool, epilogue: seq<Stmt>)

  function ScriptRun(sc: Script, sheets: seq<Sheet>, db: Stmt -> Reply): Run {
    var p := Chained(sc.prologue, db);
    if p.err.Some? then Run(p.events, Halted(p.err.value))
    else
      var s := SheetsRun(sc.imp, sheets, sc.clearEach, db);
      if s.outcome.Halted? then Run(p.events + s.events, s.outcome)
      else
        var e := Chained(sc.epilogue, db);
        Run(p.events + s.events + e.events, if e.err.Some? then Halted(e.err.value) else s.outcome)
  }

  /** A whole script: `main` with its `try`/`catch`. */
  method RunScript(d: Database, sc: Script, sheets: seq<Sheet>, db: Stmt -> Reply) returns (outcome: Outcome)
    modifies d
    ensures d.log == old(d.log) + ScriptRun(sc, sheets, db).events
    ensures outcome == ScriptRun(sc, sheets, db).outcome
  {
    var err := RunChain(d, sc.prologue, db);
    if err.Some? {
      return Halted(err.value);
    }
    ghost var afterPrologue := d.log;
    outcome := ImportSheets(d, sc.imp, sheets, sc.clearEach, db);
    ghost var s := SheetsRun(sc.imp, sheets, sc.clearEach, db);
    ghost var p := Chained(sc.prologue, db);
    LogAppend(old(d.log), p.events, s.events);
    if outcome.Halted? {
      return;
    }
    err := RunChain(d, sc.epilogue, db);
    LogAppend(old(d.log), p.events + s.events, Chained(sc.epilogue, db).events);
    if err.Some? {
      outcome := Halted(err.value);
    }
  }

  // ---------------------------------------------------------------------
  // What the four scripts share
  // ---------------------------------------------------------------------

  /** The header mapping of the four scripts; they differ only in the column that the item
      status header maps to. Four of the keys end in a space. */
  function ProductMapping(statusColumn: string): Mapping {
    [("products_id", "sku"), ("الصنف", "name"), ("الرصيد الافتتاحي ", "description"),
     ("الكميه الحاليه ", "stock_quantity"), ("المكان ", "category"), ("الملاحظات", "supplier"),
     ("حاله الصنف", statusColumn), ("التاريخ ", "price")]
  }

  /** The columns whose only mapping keys end in a space. */
  predicate SpaceKeyed(k: string) {
    k == "description" || k == "stock_quantity" || k == "category" || k == "price"
  }

  /** A trimmed header never ends in a space, so the description, quantity, category and
      price columns keep their `rowData` defaults for every row of every sheet. */
  lemma SpaceKeyedUnreachable(statusColumn: string, sw: Switch, first: Row, row: Row, defaults: Fields, k: string)
    requires SpaceKeyed(k) && !SpaceKeyed(statusColumn)
    ensures Get(Filled(ProductMapping(statusColumn), sw, TrimmedHeaders(first), row, defaults, |first|), k)
         == Get(defaults, k)
  {
    var m := ProductMapping(statusColumn);
    forall i | 0 <= i < |m| && m[i].1 == k ensures EndsInSpace(m[i].0) {
      if i == 6 {
        assert false;
      }
    }
    NeverWritten(m, sw, first, row, defaults, k);
  }

  /** So an INSERT parameter drawn from such a column is the same for every row. */
  lemma SpaceKeyedArg(imp: Importer, statusColumn: string, first: Row, row: Row, a: Arg)
    requires imp.mapping == ProductMapping(statusColumn)
    requires SpaceKeyed(a.column) && !SpaceKeyed(statusColumn)
    ensures ArgValue(a, RowFields(imp, TrimmedHeaders(first), row)) == ArgValue(a, imp.defaults)
  {
    SpaceKeyedUnreachable(statusColumn, imp.sw, first, row, imp.defaults, a.column);
  }

  const DescribeStmt := Stmt([Text("DESCRIBE products")], [])

  const TotalStmt := Stmt([Text("SELECT COUNT(*) as total FROM products")], [])

  /** A column of a `CREATE TABLE` or of a required-columns list: its name and definition. */
  datatype ColumnDef = ColumnDef(name: string, definition: string)

  function ColumnNames(defs: seq<ColumnDef>): (r: seq<string>)
    ensures |r| == |defs|
    ensures forall i :: 0 <= i < |defs| ==> r[i] == defs[i].name
  {
    seq(|defs|, i requires 0 <= i < |defs| => defs[i].name)
  }

  function DefinitionText(c: ColumnDef): string {
    c.name + " " + c.definition
  }

  function Definitions(defs: seq<ColumnDef>): (r: seq<string>)
    ensures |r| == |defs|
  {
    seq(|defs|, i requires 0 <= i < |defs| => DefinitionText(defs[i]))
  }

  const TableOptions := " ENGINE=InnoDB DEFAULT CHARSET=utf8mb4 COLLATE=utf8mb4_unicode_ci"

  /** `CREATE TABLE IF NOT EXISTS t (...) ENGINE=InnoDB ...` (whitespace normalised). */
  function CreateStmt(table: string, defs: seq<ColumnDef>): Stmt {
    Stmt([Text("CREATE TABLE IF NOT EXISTS " + table + " (" + Join(Definitions(defs), ", ") + ")" + TableOptions)], [])
  }

  /** A script without the per-sheet clear whose statements before the loop succeed issues
      them, then every imported sheet's inserts, then the statements after the loop; when
      those succeed too it reports the per-sheet counters added up. */
  lemma ScriptWithoutClear(sc: Script, sheets: seq<Sheet>, db: Stmt -> Reply)
    requires !sc.clearEach
    requires forall i :: 0 <= i < |sc.prologue| ==> !db(sc.prologue[i]).Failed?
    ensures ScriptRun(sc, sheets, db).events
         == ExecEvents(sc.prologue) + SheetsInserts(sc.imp, sheets) + Chained(sc.epilogue, db).events
    ensures var e := Chained(sc.epilogue, db);
      ScriptRun(sc, sheets, db).outcome
      == if e.err.Some? then Halted(e.err.value) else Completed(SumCounts(sc.imp, sheets, db))
  {
    ChainedSpec(sc.prologue, db);
    var p := Chained(sc.prologue, db);
    assert p.events == ExecEvents(sc.prologue);
    WithoutClearNeverHalts(sc.imp, sheets, db);
    TotalsAreSums(sc.imp, sheets, false, db);
  }

  /** The shape of the two scripts that run four statements before the loop. */
  lemma FourStatementSetup(a: Stmt, b: Stmt, c: Stmt, e: Stmt, imp: Importer, post: seq<Stmt>,
                           sheets: seq<Sheet>, db: Stmt -> Reply)
    requires !db(a).Failed? && !db(b).Failed? && !db(c).Failed? && !db(e).Failed?
    ensures var sc := Script([a, b, c, e], imp, false, post);
      ScriptRun(sc, sheets, db).events
      == [Execute(a), Execute(b), Execute(c), Execute(e)] + SheetsInserts(imp, sheets) + Chained(post, db).events
    ensures var sc := Script([a, b, c, e], imp, false, post);
      var fin := Chained(post, db);
      ScriptRun(sc, sheets, db).outcome
      == if fin.err.Some? then Halted(fin.err.value) else Completed(SumCounts(imp, sheets, db))
  {
    var sc := Script([a, b, c, e], imp, false, post);
    ScriptWithoutClear(sc, sheets, db);
    assert ExecEvents([a, b, c, e]) == [Execute(a), Execute(b), Execute(c), Execute(e)];
  }

  /** An INSERT parameter drawn from a column whose keys end in a space is the one the
      defaults give, for every row. */
  lemma FixedArg(imp: Importer, statusColumn: string, first: Row, row: Row, i: nat, v: Value)
    requires imp.mapping == ProductMapping(statusColumn) && !SpaceKeyed(statusColumn)
    requires i < |imp.args| && SpaceKeyed(imp.args[i].column)
    requires ArgValue(imp.args[i], imp.defaults) == v
    ensures InsertStmt(imp, RowFields(imp, TrimmedHeaders(first), row)).params[i] == v
  {
    SpaceKeyedArg(imp, statusColumn, first, row, imp.args[i]);
  }

  /** The start of `rowData` in the four scripts: the name placeholder, quantity 0 and
      price 0 (upload-to-remote.js sets the status after them). */
  const ProductDefaults: Fields := [("name", Str(UnknownProduct)), ("stock_quantity", Num(0)), ("price", Num(0))]

  /** The second to fifth INSERT parameters of the four scripts, with their `||` fallbacks. */
  const SpaceArgs: seq<Arg> := [Arg("description", Some(Null)), Arg("price", Some(Num(0))),
                                Arg("category", Some(Null)), Arg("stock_quantity", Some(Num(0)))]

  /** In each of the four scripts every row is inserted with no description, price 0, no
      category and quantity 0, whatever the sheet holds. */
  lemma DefaultParameters(imp: Importer, statusColumn: string, first: Row, row: Row)
    requires imp.mapping == ProductMapping(statusColumn) && !SpaceKeyed(statusColumn)
    requires |imp.args| >= 5 && imp.args[1..5] == SpaceArgs
    requires |imp.defaults| >= 3 && imp.defaults[..3] == ProductDefaults
    requires forall i :: 3 <= i < |imp.defaults| ==> !SpaceKeyed(imp.defaults[i].0)
    ensures var p := InsertStmt(imp, RowFields(imp, TrimmedHeaders(first), row)).params;
      p[1] == Null && p[2] == Num(0) && p[3] == Null && p[4] == Num(0)
  {
    var d := imp.defaults;
    forall i | 0 <= i < |d| ensures d[i].0 != "description" && d[i].0 != "category" {
      if i < 3 {
        assert d[i] == ProductDefaults[i];
      }
    }
    GetMissing(d, "description");
    GetMissing(d, "category");
    assert d[0] == ProductDefaults[0] && d[1] == ProductDefaults[1] && d[2] == ProductDefaults[2];
    GetFirst(d, 1, "stock_quantity");
    GetFirst(d, 2, "price");
    assert imp.args[1] == SpaceArgs[0] && imp.args[2] == SpaceArgs[1];
    assert imp.args[3] == SpaceArgs[2] && imp.args[4] == SpaceArgs[3];
    FixedArg(imp, statusColumn, first, row, 1, Null);
    FixedArg(imp, statusColumn, first, row, 2, Num(0));
    FixedArg(imp, statusColumn, first, row, 3, Null);
    FixedArg(imp, statusColumn, first, row, 4, Num(0));
  }

  /** A single statement awaited after the loop. */
  lemma ChainedOne(st: Stmt, db: Stmt -> Reply)
    ensures Chained([st], db) == Chain([Execute(st)], if db(st).Failed? then Some(db(st).err.message) else None)
  {
    assert [st][..0] == [];
  }

  /** Two statements awaited after the loop; the second is not issued when the first fails. */
  lemma ChainedTwo(a: Stmt, b: Stmt, db: Stmt -> Reply)
    ensures Chained([a, b], db)
         == if db(a).Failed? then Chain([Execute(a)], Some(db(a).err.message))
            else Chain([Execute(a), Execute(b)], if db(b).Failed? then Some(db(b).err.message) else None)
  {
    assert [a, b][..1] == [a];
    ChainedOne(a, db);
  }
}
