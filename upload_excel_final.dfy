/** backend/upload-excel-final.js: describe the products table, then for each sheet with data
    rows clear the table and import that sheet. The `switch` stores unlisted columns under
    their own name (so the status is kept in `rowData`), but the INSERT lists seven columns. */
module UploadExcelFinal {
  import opened Js
  import opened Sql
  import opened Db
  import opened Excel
  import opened SheetImport

  const Defaults: Fields := [("name", Str(UnknownProduct)), ("stock_quantity", Num(0)), ("price", Num(0))]

  const Args: seq<Arg> := [
    Arg("name", Some(Str(UnknownProduct))), Arg("description", Some(Null)), Arg("price", Some(Num(0))),
    Arg("category", Some(Null)), Arg("stock_quantity", Some(Num(0))), Arg("sku", Some(Null)),
    Arg("supplier", Some(Null))]

  const ExcelFinal := Importer(
    ProductMapping("status"),
    Switch(["name", "description", "price", "category", "stock_quantity", "sku", "supplier"], true),
    Defaults, Args, false)

  const Upload := Script([DescribeStmt], ExcelFinal, true, [])

  /** Each imported sheet first empties the table, so when the statements succeed the last
      statements of the run are the clear of the last imported sheet and that sheet's inserts,
      none of which is a clear: only the last imported sheet's rows remain. */
  lemma OnlyLastSheetRemains(sheets: seq<Sheet>, db: Stmt -> Reply)
    requires !db(DescribeStmt).Failed? && !db(ClearStmt).Failed?
    requires LastImported(sheets) > 0
    ensures var j := LastImported(sheets);
      var s := sheets[j - 1];
      ScriptRun(Upload, sheets, db).events
      == [Execute(DescribeStmt)] + SheetsRun(ExcelFinal, sheets[..j - 1], true, db).events + [Execute(ClearStmt)]
         + RowsEvents(ExcelFinal, SheetHeaders(s), SheetRows(s))
    ensures var j := LastImported(sheets);
      var s := sheets[j - 1];
      Execute(ClearStmt) !in RowsEvents(ExcelFinal, SheetHeaders(s), SheetRows(s))
  {
    ClearEachScript(DescribeStmt, ExcelFinal, sheets, db);
  }

  /** When the clear fails, the run stops at the first sheet with data rows, before any insert. */
  lemma FailedClearStops(sheets: seq<Sheet>, db: Stmt -> Reply)
    requires !db(DescribeStmt).Failed? && db(ClearStmt).Failed?
    ensures ScriptRun(Upload, sheets, db).events
         == [Execute(DescribeStmt)] + (if LastImported(sheets) > 0 then [Execute(ClearStmt)] else [])
    ensures ScriptRun(Upload, sheets, db).outcome.Halted? <==> LastImported(sheets) > 0
  {
    ChainedOne(DescribeStmt, db);
    FailedClearSheets(ExcelFinal, sheets, db);
  }

  /** Whatever status a row stores, the INSERT is the same: the status never reaches the table. */
  lemma StatusNotInserted(fields: Fields, v: Value)
    ensures InsertStmt(ExcelFinal, Put(fields, "status", v)) == InsertStmt(ExcelFinal, fields)
  {
    assert Columns(Args) == ["name", "description", "price", "category", "stock_quantity", "sku", "supplier"];
    InsertIgnoresField(ExcelFinal, fields, "status", v);
  }

  /** Every row is inserted with no description, price 0, no category and quantity 0. */
  lemma FixedParameters(first: Row, row: Row)
    ensures var p := InsertStmt(ExcelFinal, RowFields(ExcelFinal, TrimmedHeaders(first), row)).params;
      p[1] == Null && p[2] == Num(0) && p[3] == Null && p[4] == Num(0)
  {
    assert Args[1..5] == SpaceArgs && Defaults[..3] == ProductDefaults;
    DefaultParameters(ExcelFinal, "status", first, row);
  }
}
