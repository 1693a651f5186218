/** backend/upload-final.js: bring the products table up to the required columns, clear it
    when it holds rows, then import every sheet with `INSERT IGNORE`, counting a row only
    when the statement changed one; the status header feeds a `notes` field that is never
    inserted. */
module UploadFinal {
  import opened Js
  import opened Sql
  import opened Db
  import opened Excel
  import opened SheetImport
  import Reports

  // ---------------------------------------------------------------------
  // ensureTableCompatibility
  // ---------------------------------------------------------------------

  const RequiredColumns: seq<ColumnDef> := [
    ColumnDef("id", "INT AUTO_INCREMENT PRIMARY KEY"),
    ColumnDef("name", "VARCHAR(255) NOT NULL"),
    ColumnDef("description", "TEXT"),
    ColumnDef("price", "DECIMAL(10,2) DEFAULT 0.00"),
    ColumnDef("category", "VARCHAR(100)"),
    ColumnDef("stock_quantity", "INT DEFAULT 0"),
    ColumnDef("sku", "VARCHAR(100) UNIQUE"),
    ColumnDef("supplier", "VARCHAR(255)"),
    ColumnDef("created_at", "TIMESTAMP DEFAULT CURRENT_TIMESTAMP"),
    ColumnDef("updated_at", "TIMESTAMP DEFAULT CURRENT_TIMESTAMP ON UPDATE CURRENT_TIMESTAMP")]

  /** `new Set(tableStructure.map(col => col.Field))`, as the values it holds. */
  function ExistingColumns(structure: Reply): (r: seq<Value>)
    ensures |r| == |RowsOf(structure)|
  {
    seq(|RowsOf(structure)|, i requires 0 <= i < |RowsOf(structure)| => Prop(RowsOf(structure)[i], "Field"))
  }

  /** `!existingColumns.has(columnName) && columnName !== 'id'` */
  predicate NeedsAdding(c: ColumnDef, existing: seq<Value>) {
    Str(c.name) !in existing && c.name != "id"
  }

  function AlterStmt(c: ColumnDef): Stmt {
    Stmt([Text("ALTER TABLE products ADD COLUMN " + DefinitionText(c))], [])
  }

  /** The loop over the required columns; the first ALTER that fails throws. */
  function AlterRun(cols: seq<ColumnDef>, existing: seq<Value>, db: Stmt -> Reply): Chain {
    if cols == [] then Chain([], None)
    else
      var pre := AlterRun(cols[..|cols| - 1], existing, db);
      var c := cols[|cols| - 1];
      if pre.err.Some? || !NeedsAdding(c, existing) then pre
      else Chain(pre.events + [Execute(AlterStmt(c))], if db(AlterStmt(c)).Failed? then Some(db(AlterStmt(c)).err.message) else None)
  }

  /** `DESCRIBE`, the ALTERs, `DESCRIBE` again. The oracle answers the second `DESCRIBE` as it
      answered the first, so only the first can fail. */
  function CompatRun(db: Stmt -> Reply): Chain {
    var first := db(DescribeStmt);
    if first.Failed? then Chain([Execute(DescribeStmt)], Some(first.err.message))
    else
      var alters := AlterRun(RequiredColumns, ExistingColumns(first), db);
      if alters.err.Some? then Chain([Execute(DescribeStmt)] + alters.events, alters.err)
      else Chain([Execute(DescribeStmt)] + alters.events + [Execute(DescribeStmt)], None)
  }

  /** The ALTERs issued are ALTERs of required columns that need adding, never of `id`; when
      none fails, every required column that needs adding gets its ALTER. */
  lemma {:induction false} AlterRunSpec(cols: seq<ColumnDef>, existing: seq<Value>, db: Stmt -> Reply)
    ensures var r := AlterRun(cols, existing, db);
      forall e :: e in r.events ==> exists c :: c in cols && NeedsAdding(c, existing) && e == Execute(AlterStmt(c))
    ensures var r := AlterRun(cols, existing, db);
      r.err.None? ==> forall c :: c in cols && NeedsAdding(c, existing) ==> Execute(AlterStmt(c)) in r.events
  {
    if cols != [] {
      var init, last := cols[..|cols| - 1], cols[|cols| - 1];
      AlterRunSpec(init, existing, db);
      var pre, r := AlterRun(init, existing, db), AlterRun(cols, existing, db);
      forall e | e in r.events
        ensures exists c :: c in cols && NeedsAdding(c, existing) && e == Execute(AlterStmt(c))
      {
        if e in pre.events {
          var c :| c in init && NeedsAdding(c, existing) && e == Execute(AlterStmt(c));
          assert c in cols;
        } else {
          assert last in cols;
        }
      }
      if r.err.None? {
        forall c | c in cols && NeedsAdding(c, existing) ensures Execute(AlterStmt(c)) in r.events {
          if c != last {
            assert c in init;
          }
        }
      }
    }
  }

  lemma {:induction false} AlterHaltedStays(cols: seq<ColumnDef>, existing: seq<Value>, db: Stmt -> Reply, i: nat)
    requires i <= |cols|
    requires AlterRun(cols[..i], existing, db).err.Some?
    ensures AlterRun(cols, existing, db) == AlterRun(cols[..i], existing, db)
  {
    if i < |cols| {
      assert cols[..|cols| - 1][..i] == cols[..i];
      AlterHaltedStays(cols[..|cols| - 1], existing, db, i);
    } else {
      assert cols[..i] == cols;
    }
  }

  lemma AlterRunStep(cols: seq<ColumnDef>, existing: seq<Value>, db: Stmt -> Reply, i: nat)
    requires i < |cols|
    ensures var pre := AlterRun(cols[..i], existing, db);
      AlterRun(cols[..i + 1], existing, db)
      == if pre.err.Some? || !NeedsAdding(cols[i], existing) then pre
         else Chain(pre.events + [Execute(AlterStmt(cols[i]))],
                    if db(AlterStmt(cols[i])).Failed? then Some(db(AlterStmt(cols[i])).err.message) else None)
  {
    assert cols[..i + 1][..i] == cols[..i];
  }

  method AddMissingColumns(d: Database, existing: seq<Value>, db: Stmt -> Reply) returns (err: Option<string>)
    modifies d
    ensures d.log == old(d.log) + AlterRun(RequiredColumns, existing, db).events
    ensures err == AlterRun(RequiredColumns, existing, db).err
  {
    err := None;
    var i := 0;
    while i < |RequiredColumns|
      invariant 0 <= i <= |RequiredColumns|
      invariant d.log == old(d.log) + AlterRun(RequiredColumns[..i], existing, db).events
      invariant AlterRun(RequiredColumns[..i], existing, db).err.None? && err.None?
    {
      var column := RequiredColumns[i];
      ghost var pre := AlterRun(RequiredColumns[..i], existing, db);
      AlterRunStep(RequiredColumns, existing, db, i);
      if Str(column.name) !in existing && column.name != "id" {
        var reply := d.Query(AlterStmt(column), db);
        LogAppend(old(d.log), pre.events, [Execute(AlterStmt(column))]);
        if reply.Failed? {
          AlterHaltedStays(RequiredColumns, existing, db, i + 1);
          return Some(reply.err.message);
        }
      }
      i := i + 1;
    }
    assert RequiredColumns[..i] == RequiredColumns;
  }

  method EnsureTableCompatibility(d: Database, db: Stmt -> Reply) returns (err: Option<string>)
    modifies d
    ensures d.log == old(d.log) + CompatRun(db).events
    ensures err == CompatRun(db).err
  {
    var structure := d.Query(DescribeStmt, db);
    if structure.Failed? {
      return Some(structure.err.message);
    }
    err := AddMissingColumns(d, ExistingColumns(structure), db);
    ghost var alters := AlterRun(RequiredColumns, ExistingColumns(structure), db);
    LogAppend(old(d.log), [Execute(DescribeStmt)], alters.events);
    if err.Some? {
      return;
    }
    var _ := d.Query(DescribeStmt, db);
    LogAppend(old(d.log), [Execute(DescribeStmt)] + alters.events, [Execute(DescribeStmt)]);
  }

  /** Every column the INSERT names is a required column other than `id`: after a successful
      compatibility check each of them was in the table or had its ALTER issued. */
  lemma InsertedColumnsEnsured(db: Stmt -> Reply)
    requires CompatRun(db).err.None?
    ensures var existing := ExistingColumns(db(DescribeStmt));
      forall c :: c in Columns(Args) ==>
        Str(c) in existing || exists def :: Execute(AlterStmt(ColumnDef(c, def))) in CompatRun(db).events
  {
    var existing := ExistingColumns(db(DescribeStmt));
    ArgsRequired();
    ColumnsEnsured(RequiredColumns, Columns(Args), existing, db);
  }

  /** Named columns that are required and not `id` are present or altered in by a run of
      ALTERs that succeeds. */
  lemma ColumnsEnsured(cols: seq<ColumnDef>, names: seq<string>, existing: seq<Value>, db: Stmt -> Reply)
    requires forall c :: c in names ==> c != "id" && exists k :: 0 <= k < |cols| && cols[k].name == c
    requires AlterRun(cols, existing, db).err.None?
    ensures forall c :: c in names ==>
      Str(c) in existing || exists def :: Execute(AlterStmt(ColumnDef(c, def))) in AlterRun(cols, existing, db).events
  {
    AlterRunSpec(cols, existing, db);
    forall c | c in names && Str(c) !in existing
      ensures exists def :: Execute(AlterStmt(ColumnDef(c, def))) in AlterRun(cols, existing, db).events
    {
      var k :| 0 <= k < |cols| && cols[k].name == c;
      assert NeedsAdding(cols[k], existing);
      assert cols[k] == ColumnDef(c, cols[k].definition);
    }
  }

  lemma ArgsRequired()
    ensures forall c :: c in Columns(Args) ==> c != "id" && exists k :: 0 <= k < |RequiredColumns| && RequiredColumns[k].name == c
  {
    assert Columns(Args) == ["name", "description", "price", "category", "stock_quantity", "sku", "supplier"];
    assert RequiredColumns[1].name == "name" && RequiredColumns[2].name == "description";
    assert RequiredColumns[3].name == "price" && RequiredColumns[4].name == "category";
    assert RequiredColumns[5].name == "stock_quantity" && RequiredColumns[6].name == "sku";
    assert RequiredColumns[7].name == "supplier";
  }

  // ---------------------------------------------------------------------
  // The import
  // ---------------------------------------------------------------------

  const Defaults: Fields := [("name", Str(UnknownProduct)), ("stock_quantity", Num(0)), ("price", Num(0))]

  /** The first parameter is `rowData.name` without a fallback. */
  const Args: seq<Arg> := [
    Arg("name", None), Arg("description", Some(Null)), Arg("price", Some(Num(0))),
    Arg("category", Some(Null)), Arg("stock_quantity", Some(Num(0))), Arg("sku", Some(Null)),
    Arg("supplier", Some(Null))]

  const Final := Importer(
    ProductMapping("notes"),
    Switch(["name", "description", "price", "category", "stock_quantity", "sku", "supplier", "notes"], false),
    Defaults, Args, true)

  const CountBeforeStmt := Stmt([Text("SELECT COUNT(*) as count FROM products")], [])

  const SampleStmt := Stmt([Text("SELECT id, name, sku, stock_quantity, category FROM products LIMIT 5")], [])

  /** `countBefore[0].count > 0` for the values a count can take; a count read as text or as
      anything else that is not a number or a boolean is taken as not positive. */
  predicate Positive(v: Value) {
    (v.Num? && v.n > 0) || v == Bool(true)
  }

  /** The record count and the clear that follows it when the table holds rows. Reading
      `countBefore[0].count` from an empty result throws a `TypeError`. */
  function ClearRun(db: Stmt -> Reply): Chain {
    var count := db(CountBeforeStmt);
    if count.Failed? then Chain([Execute(CountBeforeStmt)], Some(count.err.message))
    else if RowsOf(count) == [] then Chain([Execute(CountBeforeStmt)], Some(Reports.CountOfUndefined))
    else if !Positive(Prop(RowsOf(count)[0], "count")) then Chain([Execute(CountBeforeStmt)], None)
    else Chain([Execute(CountBeforeStmt)] + [Execute(ClearStmt)],
               if db(ClearStmt).Failed? then Some(db(ClearStmt).err.message) else None)
  }

  method ClearIfPopulated(d: Database, db: Stmt -> Reply) returns (err: Option<string>)
    modifies d
    ensures d.log == old(d.log) + ClearRun(db).events
    ensures err == ClearRun(db).err
  {
    var countBefore := d.Query(CountBeforeStmt, db);
    if countBefore.Failed? {
      return Some(countBefore.err.message);
    }
    if RowsOf(countBefore) == [] {
      return Some(Reports.CountOfUndefined);
    }
    err := None;
    if Positive(Prop(RowsOf(countBefore)[0], "count")) {
      var cleared := d.Query(ClearStmt, db);
      LogAppend(old(d.log), [Execute(CountBeforeStmt)], [Execute(ClearStmt)]);
      if cleared.Failed? {
        err := Some(cleared.err.message);
      }
    }
  }

  /** The whole script after the database has been chosen and connected. */
  function FinalRun(sheets: seq<Sheet>, db: Stmt -> Reply): Run {
    var compat := CompatRun(db);
    if compat.err.Some? then Run(compat.events, Halted(compat.err.value))
    else
      var clear := ClearRun(db);
      var before := compat.events + clear.events;
      if clear.err.Some? then Run(before, Halted(clear.err.value))
      else
        var s := SheetsRun(Final, sheets, false, db);
        var fin := Chained([TotalStmt, SampleStmt], db);
        Run(before + s.events + fin.events, if fin.err.Some? then Halted(fin.err.value) else s.outcome)
  }

  /** `uploadExcelDataFinal` from `ensureTableCompatibility` on. */
  method Upload(d: Database, sheets: seq<Sheet>, db: Stmt -> Reply) returns (outcome: Outcome)
    modifies d
    ensures d.log == old(d.log) + FinalRun(sheets, db).events
    ensures outcome == FinalRun(sheets, db).outcome
  {
    var err := EnsureTableCompatibility(d, db);
    if err.Some? {
      return Halted(err.value);
    }
    err := ClearIfPopulated(d, db);
    ghost var before := CompatRun(db).events + ClearRun(db).events;
    LogAppend(old(d.log), CompatRun(db).events, ClearRun(db).events);
    if err.Some? {
      return Halted(err.value);
    }
    outcome := ImportSheets(d, Final, sheets, false, db);
    ghost var s := SheetsRun(Final, sheets, false, db);
    LogAppend(old(d.log), before, s.events);
    err := RunChain(d, [TotalStmt, SampleStmt], db);
    LogAppend(old(d.log), before + s.events, Chained([TotalStmt, SampleStmt], db).events);
    if err.Some? {
      outcome := Halted(err.value);
    }
  }

  /** The table is cleared only when it held rows, before any insert; with the statements
      around the loop succeeding, the script then issues every imported sheet's inserts and
      ends with the inserts' counters added up. */
  lemma RunOrder(sheets: seq<Sheet>, db: Stmt -> Reply)
    requires CompatRun(db).err.None?
    requires !db(CountBeforeStmt).Failed? && RowsOf(db(CountBeforeStmt)) != []
    requires !db(ClearStmt).Failed? && !db(TotalStmt).Failed? && !db(SampleStmt).Failed?
    ensures var clear := Positive(Prop(RowsOf(db(CountBeforeStmt))[0], "count"));
      FinalRun(sheets, db).events
      == CompatRun(db).events + [Execute(CountBeforeStmt)] + (if clear then [Execute(ClearStmt)] else [])
         + SheetsInserts(Final, sheets) + [Execute(TotalStmt), Execute(SampleStmt)]
    ensures FinalRun(sheets, db).outcome == Completed(SumCounts(Final, sheets, db))
  {
    var clear := Positive(Prop(RowsOf(db(CountBeforeStmt))[0], "count"));
    var c := ClearRun(db);
    assert c == Chain([Execute(CountBeforeStmt)] + (if clear then [Execute(ClearStmt)] else []), None);
    WithoutClearNeverHalts(Final, sheets, db);
    TotalsAreSums(Final, sheets, false, db);
    ChainedTwo(TotalStmt, SampleStmt, db);
    var s := SheetsRun(Final, sheets, false, db);
    var fin := Chained([TotalStmt, SampleStmt], db);
    assert FinalRun(sheets, db) == Run(CompatRun(db).events + c.events + s.events + fin.events, s.outcome);
  }

  /** Whatever notes a row stores, the INSERT is the same: the notes never reach the table. */
  lemma NotesNotInserted(fields: Fields, v: Value)
    ensures InsertStmt(Final, Put(fields, "notes", v)) == InsertStmt(Final, fields)
  {
    assert Columns(Args) == ["name", "description", "price", "category", "stock_quantity", "sku", "supplier"];
    InsertIgnoresField(Final, fields, "notes", v);
  }

  /** Every row is inserted with no description, price 0, no category and quantity 0. */
  lemma FixedParameters(first: Row, row: Row)
    ensures var p := InsertStmt(Final, RowFields(Final, TrimmedHeaders(first), row)).params;
      p[1] == Null && p[2] == Num(0) && p[3] == Null && p[4] == Num(0)
  {
    assert Args[1..5] == SpaceArgs && Defaults[..3] == ProductDefaults;
    DefaultParameters(Final, "notes", first, row);
  }
}
