/** backend/upload-adaptive.js: the import of upload-to-remote.js against whichever database
    answers, with a products table that has no status column: the status header is mapped
    but no `case` stores it, and the INSERT lists seven columns. */
module UploadAdaptive {
  import opened Js
  import opened Sql
  import opened Db
  import opened Excel
  import opened SheetImport

  const ProductsColumns: seq<ColumnDef> := [
    ColumnDef("id", "INT AUTO_INCREMENT PRIMARY KEY"),
    ColumnDef("name", "VARCHAR(255) NOT NULL"),
    ColumnDef("description", "TEXT"),
    ColumnDef("price", "DECIMAL(10,2) DEFAULT 0.00"),
    ColumnDef("category", "VARCHAR(100)"),
    ColumnDef("stock_quantity", "INT DEFAULT 0"),
    ColumnDef("sku", "VARCHAR(100) UNIQUE"),
    ColumnDef("supplier", "VARCHAR(255)"),
    ColumnDef("created_at", "TIMESTAMP DEFAULT CURRENT_TIMESTAMP"),
    ColumnDef("updated_at", "TIMESTAMP DEFAULT CURRENT_TIMESTAMP ON UPDATE CURRENT_TIMESTAMP")]

  const SuppliersColumns: seq<ColumnDef> := [
    ColumnDef("id", "INT AUTO_INCREMENT PRIMARY KEY"),
    ColumnDef("name", "VARCHAR(255) NOT NULL"),
    ColumnDef("contact_info", "TEXT"),
    ColumnDef("address", "TEXT"),
    ColumnDef("created_at", "TIMESTAMP DEFAULT CURRENT_TIMESTAMP"),
    ColumnDef("updated_at", "TIMESTAMP DEFAULT CURRENT_TIMESTAMP ON UPDATE CURRENT_TIMESTAMP")]

  const Defaults: Fields := [("name", Str(UnknownProduct)), ("stock_quantity", Num(0)), ("price", Num(0))]

  const Args: seq<Arg> := [
    Arg("name", Some(Str(UnknownProduct))), Arg("description", Some(Null)), Arg("price", Some(Num(0))),
    Arg("category", Some(Null)), Arg("stock_quantity", Some(Num(0))), Arg("sku", Some(Null)),
    Arg("supplier", Some(Null))]

  const Adaptive := Importer(
    ProductMapping("status"),
    Switch(["name", "description", "price", "category", "stock_quantity", "sku", "supplier"], false),
    Defaults, Args, false)

  const CreateProducts := CreateStmt("products", ProductsColumns)

  const CreateSuppliers := CreateStmt("suppliers", SuppliersColumns)

  const SampleStmt := Stmt([Text("SELECT id, name, sku, stock_quantity FROM products LIMIT 3")], [])

  /** `setupDatabase`, `DESCRIBE products` and the one `DELETE FROM products` before the loop;
      the final count and the three-row sample after it. */
  const Upload := Script([CreateProducts, CreateSuppliers, DescribeStmt, ClearStmt], Adaptive, false,
                         [TotalStmt, SampleStmt])

  /** When the setup succeeds the script creates, describes and clears the table once, then
      issues every imported sheet's inserts, the count and, unless the count fails, the
      sample; it ends with the inserts' counters added up unless one of those two fails. */
  lemma RunOrder(sheets: seq<Sheet>, db: Stmt -> Reply)
    requires !db(CreateProducts).Failed? && !db(CreateSuppliers).Failed?
    requires !db(DescribeStmt).Failed? && !db(ClearStmt).Failed?
    ensures var setup := [Execute(CreateProducts), Execute(CreateSuppliers), Execute(DescribeStmt), Execute(ClearStmt)];
      ScriptRun(Upload, sheets, db).events
      == setup + SheetsInserts(Adaptive, sheets)
         + (if db(TotalStmt).Failed? then [Execute(TotalStmt)] else [Execute(TotalStmt), Execute(SampleStmt)])
    ensures ScriptRun(Upload, sheets, db).outcome
         == if db(TotalStmt).Failed? then Halted(db(TotalStmt).err.message)
            else if db(SampleStmt).Failed? then Halted(db(SampleStmt).err.message)
            else Completed(SumCounts(Adaptive, sheets, db))
  {
    FourStatementSetup(CreateProducts, CreateSuppliers, DescribeStmt, ClearStmt, Adaptive, [TotalStmt, SampleStmt], sheets, db);
    ChainedTwo(TotalStmt, SampleStmt, db);
  }

  /** Every column the INSERT names is a column of the table the script creates. */
  lemma InsertedColumnsExist()
    ensures forall c :: c in Columns(Args) ==> c in ColumnNames(ProductsColumns)
  {
    assert Columns(Args) == ["name", "description", "price", "category", "stock_quantity", "sku", "supplier"];
    assert ColumnNames(ProductsColumns)[1..8] == Columns(Args);
  }

  /** The status header is mapped, but no `case` stores it: `rowData.status` is never set. */
  lemma StatusNeverStored(first: Row, row: Row)
    ensures Get(RowFields(Adaptive, TrimmedHeaders(first), row), "status") == Undefined
  {
    UnhandledNeverWritten(Adaptive.mapping, Adaptive.sw, TrimmedHeaders(first), row, Defaults, "status");
    GetMissing(Defaults, "status");
  }

  /** Every row is inserted with no description, price 0, no category and quantity 0. */
  lemma FixedParameters(first: Row, row: Row)
    ensures var p := InsertStmt(Adaptive, RowFields(Adaptive, TrimmedHeaders(first), row)).params;
      p[1] == Null && p[2] == Num(0) && p[3] == Null && p[4] == Num(0)
  {
    assert Args[1..5] == SpaceArgs && Defaults[..3] == ProductDefaults;
    DefaultParameters(Adaptive, "status", first, row);
  }
}
