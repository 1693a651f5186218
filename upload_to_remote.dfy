/** backend/upload-to-remote.js: create the products and suppliers tables if needed,
    describe the products table, clear it once, import every sheet, and count the result. */
module UploadToRemote {
  import opened Js
  import opened Sql
  import opened Db
  import opened Excel
  import opened SheetImport

  const ProductsColumns: seq<ColumnDef> := [
    ColumnDef("id", "INT AUTO_INCREMENT PRIMARY KEY"),
    ColumnDef("name", "VARCHAR(255) NOT NULL"),
    ColumnDef("description", "TEXT"),
    ColumnDef("price", "DECIMAL(10,2) DEFAULT 0.00"),
    ColumnDef("category", "VARCHAR(100)"),
    ColumnDef("stock_quantity", "INT DEFAULT 0"),
    ColumnDef("sku", "VARCHAR(100) UNIQUE"),
    ColumnDef("supplier", "VARCHAR(255)"),
    ColumnDef("status", "VARCHAR(50) DEFAULT 'active'"),
    ColumnDef("created_at", "TIMESTAMP DEFAULT CURRENT_TIMESTAMP"),
    ColumnDef("updated_at", "TIMESTAMP DEFAULT CURRENT_TIMESTAMP ON UPDATE CURRENT_TIMESTAMP")]

  const SuppliersColumns: seq<ColumnDef> := [
    ColumnDef("id", "INT AUTO_INCREMENT PRIMARY KEY"),
    ColumnDef("name", "VARCHAR(255) NOT NULL"),
    ColumnDef("contact_info", "TEXT"),
    ColumnDef("address", "TEXT"),
    ColumnDef("created_at", "TIMESTAMP DEFAULT CURRENT_TIMESTAMP"),
    ColumnDef("updated_at", "TIMESTAMP DEFAULT CURRENT_TIMESTAMP ON UPDATE CURRENT_TIMESTAMP")]

  /** `rowData` before the headers are visited. */
  const Defaults: Fields :=
    [("name", Str(UnknownProduct)), ("stock_quantity", Num(0)), ("price", Num(0)), ("status", Str("active"))]

  const Args: seq<Arg> := [
    Arg("name", Some(Str(UnknownProduct))), Arg("description", Some(Null)), Arg("price", Some(Num(0))),
    Arg("category", Some(Null)), Arg("stock_quantity", Some(Num(0))), Arg("sku", Some(Null)),
    Arg("supplier", Some(Null)), Arg("status", Some(Str("active")))]

  const Remote := Importer(
    ProductMapping("status"),
    Switch(["name", "description", "price", "category", "stock_quantity", "sku", "supplier", "status"], true),
    Defaults, Args, false)

  const CreateProducts := CreateStmt("products", ProductsColumns)

  const CreateSuppliers := CreateStmt("suppliers", SuppliersColumns)

  /** `setupRemoteDatabase`, `DESCRIBE products` and the one `DELETE FROM products` before the
      sheet loop; the final `SELECT COUNT(*)` after it. */
  const Upload := Script([CreateProducts, CreateSuppliers, DescribeStmt, ClearStmt], Remote, false, [TotalStmt])

  /** When the setup succeeds the script creates, describes and clears the table once, then
      issues every imported sheet's inserts and the final count; it ends with those inserts'
      counters added up unless the count fails. */
  lemma RunOrder(sheets: seq<Sheet>, db: Stmt -> Reply)
    requires !db(CreateProducts).Failed? && !db(CreateSuppliers).Failed?
    requires !db(DescribeStmt).Failed? && !db(ClearStmt).Failed?
    ensures ScriptRun(Upload, sheets, db).events
         == [Execute(CreateProducts), Execute(CreateSuppliers), Execute(DescribeStmt), Execute(ClearStmt)]
            + SheetsInserts(Remote, sheets) + [Execute(TotalStmt)]
    ensures ScriptRun(Upload, sheets, db).outcome
         == if db(TotalStmt).Failed? then Halted(db(TotalStmt).err.message) else Completed(SumCounts(Remote, sheets, db))
  {
    FourStatementSetup(CreateProducts, CreateSuppliers, DescribeStmt, ClearStmt, Remote, [TotalStmt], sheets, db);
    ChainedOne(TotalStmt, db);
  }

  /** Every column the INSERT names is a column of the table the script creates. */
  lemma InsertedColumnsExist()
    ensures forall c :: c in Columns(Args) ==> c in ColumnNames(ProductsColumns)
  {
    assert Columns(Args) == ["name", "description", "price", "category", "stock_quantity", "sku", "supplier", "status"];
    assert ColumnNames(ProductsColumns)[1..9] == Columns(Args);
  }

  /** Because the description, quantity, category and price keys end in a space, every row
      is inserted with no description, price 0, no category and quantity 0. */
  lemma FixedParameters(first: Row, row: Row)
    ensures var p := InsertStmt(Remote, RowFields(Remote, TrimmedHeaders(first), row)).params;
      p[1] == Null && p[2] == Num(0) && p[3] == Null && p[4] == Num(0)
  {
    assert Args[1..5] == SpaceArgs && Defaults[..3] == ProductDefaults;
    DefaultParameters(Remote, "status", first, row);
  }
}
