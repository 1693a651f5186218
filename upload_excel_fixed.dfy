/** backend/upload-excel-fixed.js: the Excel import that uses the table's existing columns.
    It describes `products`, then walks the workbook's sheets. For each sheet with a header
    row and at least one non-empty data row, it clears the table and inserts one product per
    data row. The product is built from the raw (untrimmed) headers, through a fixed mapping
    or a sanitised form of the header itself, and gets per-row defaults for a blank name, SKU
    or category. The script stops after the first sheet that inserted at least one row. */
module UploadExcelFixed {
  import opened Js
  import opened Sql
  import opened Db
  import opened Excel
  import SheetImport

  // ---------------------------------------------------------------------
  // Data rows
  // ---------------------------------------------------------------------

  /** `cell == null || cell === ''`: holes, `null`, `undefined` and the empty string. A
      string of spaces and the number 0 are not missing. */
  predicate Missing(cell: Value) {
    cell.Undefined? || cell.Null? || cell == Str("")
  }

  /** `row.length > 0 && row.some(cell => cell != null && cell !== '')` */
  predicate Occupied(row: Row) {
    |row| > 0 && exists i :: 0 <= i < |row| && !Missing(row[i])
  }

  /** `jsonData.slice(1).filter(...)` applied to the rows after the header row. */
  function KeptRows(rows: seq<Row>): (r: seq<Row>)
    ensures |r| <= |rows|
    ensures forall x :: x in r <==> x in rows && Occupied(x)
  {
    if rows == [] then []
    else (if Occupied(rows[0]) then [rows[0]] else []) + KeptRows(rows[1..])
  }

  /** The "skip empty rows" test of the row loop: `!row || row.length === 0 ||
      row.every(cell => cell == null || cell === '')`. */
  predicate SkipTest(row: Row) {
    |row| == 0 || forall i :: 0 <= i < |row| ==> Missing(row[i])
  }

  /** The filter has already removed every row the loop's own skip test would skip, so that
      test never fires and every kept row is inserted. */
  lemma SkipTestNeverFires(rows: seq<Row>)
    ensures forall x :: x in KeptRows(rows) ==> !SkipTest(x)
  {
    forall x | x in KeptRows(rows) ensures !SkipTest(x) {
      assert Occupied(x);
      var i :| 0 <= i < |x| && !Missing(x[i]);
    }
  }

  // ---------------------------------------------------------------------
  // Header mapping
  // ---------------------------------------------------------------------

  /** The script's `headerMapping` object literal. */
  const HeaderMapping: Mapping := [
    ("الرقم", "id"), ("رقم", "id"), ("ID", "id"),
    ("الاسم", "name"), ("اسم المنتج", "name"), ("المنتج", "name"), ("Name", "name"), ("اسم", "name"),
    ("Product", "name"),
    ("الوصف", "description"), ("وصف", "description"), ("Description", "description"),
    ("السعر", "price"), ("سعر", "price"), ("Price", "price"),
    ("الكمية", "stock"), ("كمية", "stock"), ("المخزون", "stock"), ("Stock", "stock"), ("Quantity", "stock"),
    ("الفئة", "category"), ("فئة", "category"), ("Category", "category"), ("النوع", "category"),
    ("نوع", "category"), ("Type", "category"),
    ("الكود", "sku"), ("كود", "sku"), ("SKU", "sku"), ("Code", "sku"), ("رقم المنتج", "sku"),
    ("Product Code", "sku")]

  /** The characters the pattern `[^a-zA-Z0-9_]` does not match. */
  predicate WordChar(c: char) {
    'a' <= c <= 'z' || 'A' <= c <= 'Z' || '0' <= c <= '9' || c == '_'
  }

  /** The characters of a sanitised column name. */
  predicate ColumnChar(c: char) {
    'a' <= c <= 'z' || '0' <= c <= '9' || c == '_'
  }

  /** `s.replace(/[^a-zA-Z0-9_]/g, '_').toLowerCase()` */
  function SafeName(s: string): (r: string)
    ensures |r| == |s|
  {
    ToLower(seq(|s|, i requires 0 <= i < |s| => if WordChar(s[i]) then s[i] else '_'))
  }

  /** A sanitised name keeps the length of the header, position by position, and uses only
      lower-case letters, digits and underscores; a word character becomes its lower case
      and every other character an underscore. */
  lemma SafeNameShape(s: string)
    ensures forall i :: 0 <= i < |s| ==> ColumnChar(SafeName(s)[i])
    ensures forall i :: 0 <= i < |s| ==> SafeName(s)[i] == if WordChar(s[i]) then LowerChar(s[i]) else '_'
  {
  }

  /** Sanitising a sanitised name changes nothing. */
  lemma SafeNameIdempotent(s: string)
    ensures SafeName(SafeName(s)) == SafeName(s)
  {
    var t := SafeName(s);
    SafeNameShape(s);
    forall i | 0 <= i < |s| ensures SafeName(t)[i] == t[i] {
      assert ColumnChar(t[i]);
    }
  }

  /** `headers.map(header => ...)` for one header: the mapped column when the header is a
      key of the mapping, the sanitised header text when the header is truthy, and
      `'unknown_column'` otherwise. The lookup key is `String(header)`, as for any property
      access. */
  function MappedColumn(m: Mapping, h: Value): string {
    var mapped := Lookup(m, ToStr(h));
    if mapped.Some? && mapped.value != "" then mapped.value
    else if Truthy(h) then SafeName(ToStr(h))
    else "unknown_column"
  }

  function MappedColumns(m: Mapping, headers: Row): (r: seq<string>)
    ensures |r| == |headers|
    ensures forall i :: 0 <= i < |headers| ==> r[i] == MappedColumn(m, headers[i])
  {
    seq(|headers|, i requires 0 <= i < |headers| => MappedColumn(m, headers[i]))
  }

  /** The columns that the row loop's `switch` stores. */
  predicate IsField(k: string) {
    k == "name" || k == "description" || k == "price" || k == "stock" || k == "category" || k == "sku"
  }

  /** A header that is not a mapping key and consists of word characters only becomes its
      own lower case: `NAME`, `PRICE` or `sku` fill the field of that name. */
  lemma WordHeaderColumn(m: Mapping, s: string)
    requires Lookup(m, s).None? && s != []
    requires forall i :: 0 <= i < |s| ==> WordChar(s[i])
    ensures MappedColumn(m, Str(s)) == ToLower(s)
  {
    SafeNameShape(s);
  }

  /** Headers are not trimmed here: an unmapped header that ends in a space ends in `_`
      once sanitised, so it never names a stored field. */
  lemma SpacedHeaderDropped(m: Mapping, s: string)
    requires Lookup(m, s).None? && s != [] && s[|s| - 1] == ' '
    ensures !IsField(MappedColumn(m, Str(s)))
  {
    SafeNameShape(s);
    var c := MappedColumn(m, Str(s));
    assert c[|c| - 1] == '_';
  }

  /** Every mapped column is a stored field except `id`, which no `case` handles. */
  lemma HeaderMappingColumns()
    ensures forall i :: 0 <= i < |HeaderMapping| ==> IsField(HeaderMapping[i].1) || HeaderMapping[i].1 == "id"
  {
  }

  // ---------------------------------------------------------------------
  // One product
  // ---------------------------------------------------------------------

  /** `productData`; `price` and `stock` always hold numbers, the rest strings. */
  datatype Product = Product(name: string, description: string, price: int, category: string, stock: int, sku: string)

  const Initial := Product("", "", 0, "", 0, "")

  /** `v || 0` for a result of `parseFloat` or `parseInt`: NaN and 0 give 0. */
  function NumberOrZero(v: Value): int {
    if v.Num? then v.n else 0
  }

  /** One pass of the `j` loop: a missing cell is passed over; otherwise the `switch` stores
      the cell's text, or its parsed number for price and stock, and ignores other columns. */
  function Store(p: Product, column: string, cell: Value): Product {
    if Missing(cell) then p
    else if column == "name" then p.(name := ToStr(cell))
    else if column == "description" then p.(description := ToStr(cell))
    else if column == "price" then p.(price := NumberOrZero(ParseFloat(ToStr(cell))))
    else if column == "stock" then p.(stock := NumberOrZero(ParseInt(ToStr(cell))))
    else if column == "category" then p.(category := ToStr(cell))
    else if column == "sku" then p.(sku := ToStr(cell))
    else p
  }

  /** How far the `j` loop goes: `j < headers.length && j < row.length`. */
  function Reach(columns: seq<string>, row: Row): (n: nat)
    ensures n <= |columns| && n <= |row|
  {
    if |columns| <= |row| then |columns| else |row|
  }

  /** `productData` after the first `n` cells. */
  function Fill(columns: seq<string>, row: Row, n: nat): Product
    requires n <= |columns| && n <= |row|
  {
    if n == 0 then Initial else Store(Fill(columns, row, n - 1), columns[n - 1], row[n - 1])
  }

  /** The `j` loop. */
  method FillProduct(columns: seq<string>, row: Row) returns (p: Product)
    ensures p == Fill(columns, row, Reach(columns, row))
  {
    p := Initial;
    var j := 0;
    while j < |columns| && j < |row|
      invariant 0 <= j <= Reach(columns, row)
      invariant p == Fill(columns, row, j)
    {
      p := Store(p, columns[j], row[j]);
      j := j + 1;
    }
  }

  /** A field of the product as a value, `undefined` for a name that is not a field. */
  function FieldValue(p: Product, k: string): Value {
    if k == "name" then Str(p.name)
    else if k == "description" then Str(p.description)
    else if k == "price" then Num(p.price)
    else if k == "stock" then Num(p.stock)
    else if k == "category" then Str(p.category)
    else if k == "sku" then Str(p.sku)
    else Undefined
  }

  /** What a present cell stores in field `k`. */
  function CellValue(k: string, cell: Value): Value {
    if k == "price" then Num(NumberOrZero(ParseFloat(ToStr(cell))))
    else if k == "stock" then Num(NumberOrZero(ParseInt(ToStr(cell))))
    else if IsField(k) then Str(ToStr(cell))
    else Undefined
  }

  /** Whether a cell under `column` stores field `k`. */
  predicate Stores(column: string, cell: Value, k: string) {
    column == k && IsField(k) && !Missing(cell)
  }

  /** One pass writes exactly the field its column names, and only for a present cell. */
  lemma StoreField(p: Product, column: string, cell: Value, k: string)
    ensures FieldValue(Store(p, column, cell), k)
         == if Stores(column, cell, k) then CellValue(k, cell) else FieldValue(p, k)
  {
  }

  function StoreFlags(columns: seq<string>, row: Row, k: string): (f: seq<bool>)
    ensures |f| == Reach(columns, row)
    ensures forall j :: 0 <= j < |f| ==> f[j] == Stores(columns[j], row[j], k)
  {
    var n := Reach(columns, row);
    seq(n, j requires 0 <= j < n => Stores(columns[j], row[j], k))
  }

  /** Passes that do not store `k` leave it as it was. */
  lemma {:induction false} FillUnchanged(columns: seq<string>, row: Row, k: string, i: nat, n: nat)
    requires i <= n <= Reach(columns, row)
    requires forall j :: i <= j < n ==> !Stores(columns[j], row[j], k)
    ensures FieldValue(Fill(columns, row, n), k) == FieldValue(Fill(columns, row, i), k)
  {
    if i < n {
      assert !Stores(columns[n - 1], row[n - 1], k);
      FillStep(columns, row, k, n);
      FillUnchanged(columns, row, k, i, n - 1);
    }
  }

  /** The `n`-th pass stores `k` exactly when its column and cell do. */
  lemma FillStep(columns: seq<string>, row: Row, k: string, n: nat)
    requires 0 < n <= Reach(columns, row)
    ensures FieldValue(Fill(columns, row, n), k)
         == if Stores(columns[n - 1], row[n - 1], k) then CellValue(k, row[n - 1])
            else FieldValue(Fill(columns, row, n - 1), k)
  {
    StoreField(Fill(columns, row, n - 1), columns[n - 1], row[n - 1], k);
  }

  /** Each field holds the value of the last present cell under a column of its name, and
      its initial value when there is none: later columns win, missing cells and cells past
      the end of the header row change nothing. */
  lemma LastColumnWins(columns: seq<string>, row: Row, k: string)
    ensures var n := Reach(columns, row);
      var w := LastTrue(StoreFlags(columns, row, k), n);
      FieldValue(Fill(columns, row, n), k)
      == if w == 0 then FieldValue(Initial, k) else CellValue(k, row[w - 1])
  {
    var n := Reach(columns, row);
    var f := StoreFlags(columns, row, k);
    var w := LastTrue(f, n);
    LastTrueSpec(f, n);
    forall j | w <= j < n ensures !Stores(columns[j], row[j], k) {
      assert !f[j];
    }
    FillUnchanged(columns, row, k, w, n);
    if w > 0 {
      assert f[w - 1];
      FillStep(columns, row, k, w);
    } else {
      assert Fill(columns, row, 0) == Initial;
    }
  }

  // ---------------------------------------------------------------------
  // Per-row defaults
  // ---------------------------------------------------------------------

  const DefaultNamePrefix := "منتج من Excel - "

  const DefaultCategory := "عام"

  /** `` `منتج من Excel - ${i + 1}` `` */
  function DefaultName(i: nat): string {
    DefaultNamePrefix + NatToDecimal(i + 1)
  }

  /** `s.padStart(width, fill)` with a one-character fill. */
  function PadStart(s: string, width: nat, fill: char): (r: string)
    ensures |r| == if |s| >= width then |s| else width
  {
    if |s| >= width then s else seq(width - |s|, _ => fill) + s
  }

  /** `` `EXCEL${String(i + 1).padStart(3, '0')}` `` */
  function DefaultSku(i: nat): string {
    "EXCEL" + PadStart(NatToDecimal(i + 1), 3, '0')
  }

  /** The two "if empty" fix-ups for row `i` of the sheet's data rows: a name, SKU or
      category that is empty or whitespace gets its default. */
  function Complete(p: Product, i: nat): Product {
    Product(
      if Trim(p.name) == "" then DefaultName(i) else p.name,
      p.description, p.price,
      if Trim(p.category) == "" then DefaultCategory else p.category,
      p.stock,
      if Trim(p.sku) == "" then DefaultSku(i) else p.sku)
  }

  /** After the fix-ups the name, SKU and category are never blank; a non-blank value of the
      row's own is kept, and the other fields are untouched. */
  lemma CompleteFixes(p: Product, i: nat)
    ensures var r := Complete(p, i);
      Trim(r.name) != "" && Trim(r.sku) != "" && Trim(r.category) != ""
    ensures Trim(p.name) != "" ==> Complete(p, i).name == p.name
    ensures Trim(p.sku) != "" ==> Complete(p, i).sku == p.sku
    ensures Trim(p.category) != "" ==> Complete(p, i).category == p.category
    ensures var r := Complete(p, i);
      r.description == p.description && r.price == p.price && r.stock == p.stock
  {
    NotBlank(DefaultName(i));
    NotBlank(DefaultSku(i));
    NotBlank(DefaultCategory);
  }

  /** A string whose first character is not whitespace survives `trim` non-empty. */
  lemma NotBlank(s: string)
    requires s != [] && !IsSpace(s[0])
    ensures Trim(s) != ""
  {
    TrimShape(s);
  }

  lemma {:induction false} ZerosValue(z: string)
    requires forall i :: 0 <= i < |z| ==> z[i] == '0'
    ensures DigitsValue(z, 10) == 0
  {
    if z != [] {
      ZerosValue(z[..|z| - 1]);
    }
  }

  /** Leading zeros do not change the value of a numeral. */
  lemma {:induction false} LeadingZerosValue(z: string, s: string)
    requires forall i :: 0 <= i < |z| ==> z[i] == '0'
    ensures DigitsValue(z + s, 10) == DigitsValue(s, 10)
  {
    if s == [] {
      assert z + s == z;
      ZerosValue(z);
    } else {
      LeadingZerosValue(z, s[..|s| - 1]);
      assert (z + s)[..|z + s| - 1] == z + s[..|s| - 1];
    }
  }

  /** The digits after `EXCEL` in a default SKU read back, through `parseInt`, as the
      one-based row number it was made from. */
  lemma DefaultSkuNumber(i: nat)
    ensures StartsWith(DefaultSku(i), "EXCEL") && |DefaultSku(i)| >= 8
    ensures ParseInt(DefaultSku(i)[5..]) == Num(i + 1)
  {
    var d := NatToDecimal(i + 1);
    var p := PadStart(d, 3, '0');
    assert DefaultSku(i)[5..] == p;
    assert DefaultSku(i)[..5] == "EXCEL";
    DecimalAllDigits(i + 1);
    DecimalValue(i + 1);
    if |d| < 3 {
      var z := seq(3 - |d|, _ => '0');
      assert p == z + d;
      LeadingZerosValue(z, d);
    }
    assert forall k :: 0 <= k < |p| ==> IsDigit(p[k]);
    MagnitudeOfDigits(p);
    UnsignedMagnitude(p, i + 1);
  }

  /** Rows without a SKU of their own get distinct SKUs. */
  lemma DefaultSkusDistinct(i: nat, j: nat)
    requires i != j
    ensures DefaultSku(i) != DefaultSku(j)
  {
    DefaultSkuNumber(i);
    DefaultSkuNumber(j);
  }

  // ---------------------------------------------------------------------
  // The rows of one sheet
  // ---------------------------------------------------------------------

  /** `INSERT INTO products (name, description, price, category, stock, sku, status) VALUES
      (?, ?, ?, ?, ?, ?, ?)` */
  const InsertHead := "INSERT INTO products (name, description, price, category, stock, sku, status) VALUES ("

  const InsertSql: Sql := [Text(InsertHead)] + JoinSql(ParamList(7), Comma) + [Text(")")]

  /** The product of data row `i` (zero-based among the kept rows). */
  function RowProduct(columns: seq<string>, row: Row, i: nat): Product {
    Complete(Fill(columns, row, Reach(columns, row)), i)
  }

  function ProductParams(p: Product): seq<Value> {
    [Str(p.name), Str(p.description), Num(p.price), Str(p.category), Num(p.stock), Str(p.sku), Str("active")]
  }

  function RowStmt(columns: seq<string>, row: Row, i: nat): Stmt {
    Stmt(InsertSql, ProductParams(RowProduct(columns, row, i)))
  }

  /** The INSERT binds one parameter to each of its seven placeholders. */
  lemma InsertBalanced(columns: seq<string>, row: Row, i: nat)
    ensures Placeholders(InsertSql) == 7
    ensures Balanced(RowStmt(columns, row, i))
  {
    Append3([Text(InsertHead)], JoinSql(ParamList(7), Comma), [Text(")")]);
    Literal(InsertHead);
    Literal(")");
    ParamListPlaceholderCount(7);
  }

  /** One row: its INSERT, counted as inserted or, when the reply is an error, as an error. */
  function Tally(c: SheetImport.Counts, reply: Reply): SheetImport.Counts {
    if reply.Failed? then SheetImport.Counts(c.inserted, c.errors + 1)
    else SheetImport.Counts(c.inserted + 1, c.errors)
  }

  /** The INSERT of each kept row, in order, with the row's own position for its defaults. */
  function RowStmts(columns: seq<string>, rows: seq<Row>): (r: seq<Stmt>)
    ensures |r| == |rows|
    ensures forall k :: 0 <= k < |rows| ==> r[k] == RowStmt(columns, rows[k], k)
  {
    seq(|rows|, k requires 0 <= k < |rows| => RowStmt(columns, rows[k], k))
  }

  /** The statements executed one after another. */
  function Executes(stmts: seq<Stmt>): seq<Event> {
    if stmts == [] then [] else Executes(stmts[..|stmts| - 1]) + [Execute(stmts[|stmts| - 1])]
  }

  /** The counters after each statement's reply is tallied. */
  function Replies(stmts: seq<Stmt>, db: Stmt -> Reply): SheetImport.Counts {
    if stmts == [] then SheetImport.Counts(0, 0)
    else Tally(Replies(stmts[..|stmts| - 1], db), db(stmts[|stmts| - 1]))
  }

  function RowsEvents(columns: seq<string>, rows: seq<Row>): seq<Event> {
    Executes(RowStmts(columns, rows))
  }

  function RowsCounts(columns: seq<string>, rows: seq<Row>, db: Stmt -> Reply): SheetImport.Counts {
    Replies(RowStmts(columns, rows), db)
  }

  /** One iteration of the row loop, its `try` and its `catch`. */
  method ImportRow(d: Database, columns: seq<string>, row: Row, i: nat, db: Stmt -> Reply, c: SheetImport.Counts)
    returns (c': SheetImport.Counts)
    modifies d
    ensures d.log == old(d.log) + [Execute(RowStmt(columns, row, i))]
    ensures c' == Tally(c, db(RowStmt(columns, row, i)))
  {
    var p := FillProduct(columns, row);
    p := Complete(p, i);
    var reply := d.Query(Stmt(InsertSql, ProductParams(p)), db);
    if reply.Failed? {
      c' := SheetImport.Counts(c.inserted, c.errors + 1);
    } else {
      c' := SheetImport.Counts(c.inserted + 1, c.errors);
    }
  }

  lemma ExecutesStep(stmts: seq<Stmt>, i: nat, db: Stmt -> Reply)
    requires i < |stmts|
    ensures Executes(stmts[..i + 1]) == Executes(stmts[..i]) + [Execute(stmts[i])]
    ensures Replies(stmts[..i + 1], db) == Tally(Replies(stmts[..i], db), db(stmts[i]))
  {
    assert stmts[..i + 1][..i] == stmts[..i];
  }

  /** The `for` loop over the kept rows. */
  method ImportRows(d: Database, columns: seq<string>, rows: seq<Row>, db: Stmt -> Reply)
    returns (c: SheetImport.Counts)
    modifies d
    ensures d.log == old(d.log) + RowsEvents(columns, rows)
    ensures c == RowsCounts(columns, rows, db)
  {
    ghost var stmts := RowStmts(columns, rows);
    c := SheetImport.Counts(0, 0);
    var i := 0;
    while i < |rows|
      invariant 0 <= i <= |rows|
      invariant d.log == old(d.log) + Executes(stmts[..i])
      invariant c == Replies(stmts[..i], db)
    {
      c := ImportRow(d, columns, rows[i], i, db, c);
      ExecutesStep(stmts, i, db);
      LogAppend(old(d.log), Executes(stmts[..i]), [Execute(stmts[i])]);
      i := i + 1;
    }
    assert stmts[..i] == stmts;
  }

  /** Each statement is executed once, and each reply counted once: as inserted, or as an
      error exactly when it was an error. */
  lemma {:induction false} RepliesAccounted(stmts: seq<Stmt>, db: Stmt -> Reply)
    ensures |Executes(stmts)| == |stmts|
    ensures Replies(stmts, db).inserted + Replies(stmts, db).errors == |stmts|
    ensures Replies(stmts, db).errors == SheetImport.Failures(Executes(stmts), db)
  {
    if stmts != [] {
      var init := stmts[..|stmts| - 1];
      var e := [Execute(stmts[|stmts| - 1])];
      RepliesAccounted(init, db);
      SheetImport.FailuresAppend(Executes(init), e, db);
      assert e[..0] == [];
    }
  }

  /** The statements are executed in order. */
  lemma {:induction false} ExecutesInOrder(stmts: seq<Stmt>, k: nat)
    requires k < |stmts|
    ensures |Executes(stmts)| == |stmts|
    ensures Executes(stmts)[k] == Execute(stmts[k])
  {
    var init := stmts[..|stmts| - 1];
    RepliesAccounted(init, _ => Rows([]));
    if k < |init| {
      ExecutesInOrder(init, k);
    }
  }

  /** Every kept row issues one INSERT, the `k`-th its own with that row's defaults, and
      each is counted once: as inserted, or as an error exactly when its reply was an
      error. */
  lemma RowsAccounted(columns: seq<string>, rows: seq<Row>, db: Stmt -> Reply)
    ensures |RowsEvents(columns, rows)| == |rows|
    ensures RowsCounts(columns, rows, db).inserted + RowsCounts(columns, rows, db).errors == |rows|
    ensures RowsCounts(columns, rows, db).errors == SheetImport.Failures(RowsEvents(columns, rows), db)
    ensures forall k :: 0 <= k < |rows| ==> RowsEvents(columns, rows)[k] == Execute(RowStmt(columns, rows[k], k))
  {
    var stmts := RowStmts(columns, rows);
    RepliesAccounted(stmts, db);
    forall k | 0 <= k < |rows| ensures RowsEvents(columns, rows)[k] == Execute(RowStmt(columns, rows[k], k)) {
      ExecutesInOrder(stmts, k);
    }
  }

  // ---------------------------------------------------------------------
  // The sheets
  // ---------------------------------------------------------------------

  /** A sheet is loaded when it has a header row and at least one kept data row. */
  predicate Loadable(s: Sheet) {
    s.rows != [] && KeptRows(s.rows[1..]) != []
  }

  /** What one sheet does: nothing, a failed `DELETE`, or its rows loaded with their counts. */
  datatype SheetResult = Passed | ClearFailed(message: string) | Loaded(counts: SheetImport.Counts)

  function SheetColumns(m: Mapping, s: Sheet): seq<string>
    requires s.rows != []
  {
    MappedColumns(m, s.rows[0])
  }

  function SheetEvents(m: Mapping, s: Sheet, db: Stmt -> Reply): seq<Event> {
    if !Loadable(s) then []
    else
      var rows := if db(SheetImport.ClearStmt).Failed? then [] else RowsEvents(SheetColumns(m, s), KeptRows(s.rows[1..]));
      [Execute(SheetImport.ClearStmt)] + rows
  }

  function Result(m: Mapping, s: Sheet, db: Stmt -> Reply): SheetResult {
    if !Loadable(s) then Passed
    else if db(SheetImport.ClearStmt).Failed? then ClearFailed(db(SheetImport.ClearStmt).err.message)
    else Loaded(RowsCounts(SheetColumns(m, s), KeptRows(s.rows[1..]), db))
  }

  /** A failed `DELETE` ends the script through its outer `catch`; a sheet that inserted a
      row ends the sheet loop with `break`. */
  predicate Stops(r: SheetResult) {
    r.ClearFailed? || (r.Loaded? && r.counts.inserted > 0)
  }

  function CountsOf(r: SheetResult): SheetImport.Counts {
    if r.Loaded? then r.counts else SheetImport.Counts(0, 0)
  }

  function End(r: SheetResult): SheetImport.Outcome {
    if r.ClearFailed? then SheetImport.Halted(r.message) else SheetImport.Completed(CountsOf(r))
  }

  /** An outcome with the counts of earlier sheets added. */
  function Carry(c: SheetImport.Counts, o: SheetImport.Outcome): SheetImport.Outcome {
    if o.Halted? then o else SheetImport.Completed(SheetImport.AddCounts(c, o.totals))
  }

  /** The events `e` and counts `c` of earlier sheets, followed by the run `r` of the rest. */
  function Joined(e: seq<Event>, c: SheetImport.Counts, r: SheetImport.Run): SheetImport.Run {
    SheetImport.Run(e + r.events, Carry(c, r.outcome))
  }

  /** The `for ... of sheetNames` loop with its `continue`s and its `break`; the counts of
      the sheets it went through are added up. */
  function SheetsRun(m: Mapping, sheets: seq<Sheet>, db: Stmt -> Reply): SheetImport.Run {
    if sheets == [] then SheetImport.Run([], SheetImport.Completed(SheetImport.Counts(0, 0)))
    else
      var r := Result(m, sheets[0], db);
      var e := SheetEvents(m, sheets[0], db);
      if Stops(r) then SheetImport.Run(e, End(r))
      else Joined(e, CountsOf(r), SheetsRun(m, sheets[1..], db))
  }

  /** One sheet of the loop. */
  method ImportSheet(d: Database, m: Mapping, s: Sheet, db: Stmt -> Reply) returns (r: SheetResult)
    modifies d
    ensures d.log == old(d.log) + SheetEvents(m, s, db)
    ensures r == Result(m, s, db)
  {
    if s.rows == [] {
      return Passed;
    }
    var headers := s.rows[0];
    var dataRows := KeptRows(s.rows[1..]);
    if dataRows == [] {
      return Passed;
    }
    var cleared := d.Query(SheetImport.ClearStmt, db);
    if cleared.Failed? {
      return ClearFailed(cleared.err.message);
    }
    var columns := MappedColumns(m, headers);
    var c := ImportRows(d, columns, dataRows, db);
    LogAppend(old(d.log), [Execute(SheetImport.ClearStmt)], RowsEvents(columns, dataRows));
    r := Loaded(c);
  }

  lemma JoinedStep(acc: seq<Event>, t: SheetImport.Counts, e: seq<Event>, c: SheetImport.Counts, rest: SheetImport.Run)
    ensures Joined(acc, t, Joined(e, c, rest)) == Joined(acc + e, SheetImport.AddCounts(t, c), rest)
  {
    assert acc + (e + rest.events) == (acc + e) + rest.events;
  }

  method ImportSheets(d: Database, m: Mapping, sheets: seq<Sheet>, db: Stmt -> Reply)
    returns (outcome: SheetImport.Outcome)
    modifies d
    ensures d.log == old(d.log) + SheetsRun(m, sheets, db).events
    ensures outcome == SheetsRun(m, sheets, db).outcome
  {
    var totals := SheetImport.Counts(0, 0);
    ghost var acc: seq<Event> := [];
    var i := 0;
    assert sheets[0..] == sheets;
    while i < |sheets|
      invariant 0 <= i <= |sheets|
      invariant d.log == old(d.log) + acc
      invariant Joined(acc, totals, SheetsRun(m, sheets[i..], db)) == SheetsRun(m, sheets, db)
    {
      ghost var rest := SheetsRun(m, sheets[i + 1..], db);
      assert sheets[i..][1..] == sheets[i + 1..];
      var r := ImportSheet(d, m, sheets[i], db);
      ghost var e := SheetEvents(m, sheets[i], db);
      LogAppend(old(d.log), acc, e);
      if Stops(r) {
        outcome := Carry(totals, End(r));
        assert acc + e == acc + e + [];
        return;
      }
      JoinedStep(acc, totals, e, CountsOf(r), rest);
      acc := acc + e;
      totals := SheetImport.AddCounts(totals, CountsOf(r));
      i := i + 1;
    }
    outcome := SheetImport.Completed(totals);
    assert acc + [] == acc;
  }

  /** The index of the first sheet that stops the loop, or the number of sheets. */
  function FirstStop(m: Mapping, sheets: seq<Sheet>, db: Stmt -> Reply): (k: nat)
    ensures k <= |sheets|
    ensures forall j :: 0 <= j < k ==> !Stops(Result(m, sheets[j], db))
    ensures k < |sheets| ==> Stops(Result(m, sheets[k], db))
  {
    if sheets == [] then 0
    else if Stops(Result(m, sheets[0], db)) then 0
    else 1 + FirstStop(m, sheets[1..], db)
  }

  /** The sheets after one that stops the loop are never read: the run is that of the
      sheets up to and including it. */
  lemma {:induction false} LaterSheetsIgnored(m: Mapping, sheets: seq<Sheet>, k: nat, db: Stmt -> Reply)
    requires k < |sheets| && Stops(Result(m, sheets[k], db))
    ensures SheetsRun(m, sheets, db) == SheetsRun(m, sheets[..k + 1], db)
  {
    var p := sheets[..k + 1];
    assert p[0] == sheets[0];
    if k > 0 {
      assert p[1..] == sheets[1..][..k];
      LaterSheetsIgnored(m, sheets[1..], k - 1, db);
    }
  }

  /** The rows the run reports as inserted all come from the first sheet that stops it:
      every sheet before it failed every one of its inserts. A run that completes without
      inserting a row went through every sheet. */
  lemma {:induction false} InsertedFromOneSheet(m: Mapping, sheets: seq<Sheet>, db: Stmt -> Reply)
    ensures var r := SheetsRun(m, sheets, db); var k := FirstStop(m, sheets, db);
      r.outcome.Completed? ==>
        r.outcome.totals.inserted == (if k < |sheets| then CountsOf(Result(m, sheets[k], db)).inserted else 0)
    ensures var r := SheetsRun(m, sheets, db);
      (r.outcome.Completed? && r.outcome.totals.inserted == 0) <==> FirstStop(m, sheets, db) == |sheets|
  {
    if sheets != [] && !Stops(Result(m, sheets[0], db)) {
      InsertedFromOneSheet(m, sheets[1..], db);
    }
  }

  // ---------------------------------------------------------------------
  // The script
  // ---------------------------------------------------------------------

  /** `DESCRIBE products`, then the sheet loop; an error of either ends the script. */
  function UploadRun(sheets: seq<Sheet>, db: Stmt -> Reply): SheetImport.Run {
    var describe := [Execute(SheetImport.DescribeStmt)];
    if db(SheetImport.DescribeStmt).Failed? then
      SheetImport.Run(describe, SheetImport.Halted(db(SheetImport.DescribeStmt).err.message))
    else
      var s := SheetsRun(HeaderMapping, sheets, db);
      SheetImport.Run(describe + s.events, s.outcome)
  }

  /** `uploadExcelToDatabase()` */
  method Upload(d: Database, sheets: seq<Sheet>, db: Stmt -> Reply) returns (outcome: SheetImport.Outcome)
    modifies d
    ensures d.log == old(d.log) + UploadRun(sheets, db).events
    ensures outcome == UploadRun(sheets, db).outcome
  {
    var info := d.Query(SheetImport.DescribeStmt, db);
    if info.Failed? {
      return SheetImport.Halted(info.err.message);
    }
    ghost var mid := d.log;
    outcome := ImportSheets(d, HeaderMapping, sheets, db);
    LogAppend(old(d.log), [Execute(SheetImport.DescribeStmt)], SheetsRun(HeaderMapping, sheets, db).events);
  }

  /** Each loaded sheet clears the table before its first insert, and a sheet without
      kept rows issues nothing, not even the `DELETE`. */
  lemma SheetOrder(m: Mapping, s: Sheet, db: Stmt -> Reply)
    ensures !Loadable(s) ==> SheetEvents(m, s, db) == []
    ensures Loadable(s) ==> SheetEvents(m, s, db)[0] == Execute(SheetImport.ClearStmt)
    ensures Loadable(s) && !db(SheetImport.ClearStmt).Failed? ==>
      |SheetEvents(m, s, db)| == 1 + |KeptRows(s.rows[1..])|
  {
    if Loadable(s) && !db(SheetImport.ClearStmt).Failed? {
      RowsAccounted(SheetColumns(m, s), KeptRows(s.rows[1..]), db);
    }
  }
}
