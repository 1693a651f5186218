/** The `/api/tables` routes: list, describe, create, alter and drop user
    tables. The column-definition builder is a function on the validated
    request; each handler runs its statements through `Database.transaction`. */
module Tables {
  import opened Js
  import opened Sql
  import opened Http
  import opened Db
  import opened Validation

  /** The optional parts of a column definition, in the order they are appended. */
  datatype Clause = LengthClause | PrimaryKeyClause | AutoIncrementClause | NotNullClause | DefaultClause

  function Rank(c: Clause): nat {
    match c
    case LengthClause => 0
    case PrimaryKeyClause => 1
    case AutoIncrementClause => 2
    case NotNullClause => 3
    case DefaultClause => 4
  }

  /** What a column builder needs of its spec: a string name and a string type (the
      validators guarantee both). */
  predicate Buildable(col: Value) {
    Prop(col, "name").Str? && Prop(col, "type").Str?
  }

  /** The fields of a column spec the builders read. */
  datatype ColumnSpec = ColumnSpec(name: string, typeName: string, length: Value, nullable: Value,
                                   primaryKey: Value, autoIncrement: Value, default: Value)

  function SpecOf(col: Value): ColumnSpec
    requires Buildable(col)
  {
    ColumnSpec(Prop(col, "name").s, Prop(col, "type").s, Prop(col, "length"), Prop(col, "nullable"),
               Prop(col, "primaryKey"), Prop(col, "autoIncrement"), Prop(col, "default"))
  }

  /** The clauses a spec asks for. `keyFlags` is true for `CREATE TABLE`, whose builder also
      reads `primaryKey` and `autoIncrement`, and false for `ADD COLUMN`, whose builder does not. */
  function Clauses(col: ColumnSpec, keyFlags: bool): (r: seq<Clause>)
    ensures forall i, j :: 0 <= i < j < |r| ==> Rank(r[i]) < Rank(r[j])
    ensures LengthClause in r <==> Truthy(col.length)
    ensures PrimaryKeyClause in r <==> keyFlags && Truthy(col.primaryKey)
    ensures AutoIncrementClause in r <==> keyFlags && Truthy(col.autoIncrement)
    ensures NotNullClause in r <==> !Truthy(col.nullable) && !(keyFlags && Truthy(col.primaryKey))
    ensures DefaultClause in r <==> Truthy(col.default)
  {
    var flags := [Truthy(col.length), keyFlags && Truthy(col.primaryKey), keyFlags && Truthy(col.autoIncrement),
                  !Truthy(col.nullable) && !(keyFlags && Truthy(col.primaryKey)), Truthy(col.default)];
    KindsRanked();
    SelectKind(flags, LengthClause);
    SelectKind(flags, PrimaryKeyClause);
    SelectKind(flags, AutoIncrementClause);
    SelectKind(flags, NotNullClause);
    SelectKind(flags, DefaultClause);
    Select(flags, Kinds)
  }

  /** Every clause kind, in the order the builder appends them. */
  const Kinds := [LengthClause, PrimaryKeyClause, AutoIncrementClause, NotNullClause, DefaultClause]

  lemma KindsRanked()
    ensures forall i :: 0 <= i < |Kinds| ==> Rank(Kinds[i]) == i
    ensures forall i, j :: 0 <= i < j < |Kinds| ==> Rank(Kinds[i]) < Rank(Kinds[j])
  {
  }

  /** A kind is selected exactly when the flag at its rank is set. */
  lemma SelectKind(flags: seq<bool>, c: Clause)
    requires |flags| == |Kinds|
    ensures c in Select(flags, Kinds) <==> flags[Rank(c)]
  {
    KindsRanked();
    if c in Select(flags, Kinds) {
      var i :| 0 <= i < |Kinds| && Kinds[i] == c && flags[i];
    } else {
      assert Kinds[Rank(c)] == c;
    }
  }

  /** The clauses whose flag is set, in order. */
  function Select(flags: seq<bool>, cs: seq<Clause>): (r: seq<Clause>)
    requires |flags| == |cs|
    ensures forall c :: c in r <==> exists i :: 0 <= i < |cs| && cs[i] == c && flags[i]
    ensures (forall i, j :: 0 <= i < j < |cs| ==> Rank(cs[i]) < Rank(cs[j]))
        ==> forall i, j :: 0 <= i < j < |r| ==> Rank(r[i]) < Rank(r[j])
  {
    if cs == [] then []
    else
      var rest := Select(flags[1..], cs[1..]);
      ShiftedChoice(flags, cs, rest);
      HeadRankedFirst(cs, rest);
      if flags[0] then [cs[0]] + rest else rest
  }

  lemma ShiftedChoice(flags: seq<bool>, cs: seq<Clause>, rest: seq<Clause>)
    requires |flags| == |cs| && cs != []
    requires forall c :: c in rest <==> exists i :: 0 <= i < |cs[1..]| && cs[1..][i] == c && flags[1..][i]
    ensures forall c :: c in rest <==> exists i :: 0 < i < |cs| && cs[i] == c && flags[i]
  {
    forall c | c in rest ensures exists i :: 0 < i < |cs| && cs[i] == c && flags[i] {
      var i :| 0 <= i < |cs[1..]| && cs[1..][i] == c && flags[1..][i];
      assert cs[i + 1] == c && flags[i + 1];
    }
    forall c | exists i :: 0 < i < |cs| && cs[i] == c && flags[i] ensures c in rest {
      var i :| 0 < i < |cs| && cs[i] == c && flags[i];
      assert cs[1..][i - 1] == c && flags[1..][i - 1];
    }
  }

  lemma HeadRankedFirst(cs: seq<Clause>, rest: seq<Clause>)
    requires cs != []
    requires forall c :: c in rest ==> exists i :: 0 < i < |cs| && cs[i] == c
    ensures (forall i, j :: 0 <= i < j < |cs| ==> Rank(cs[i]) < Rank(cs[j]))
        ==> (forall i, j :: 0 <= i < j < |cs[1..]| ==> Rank(cs[1..][i]) < Rank(cs[1..][j]))
            && forall j :: 0 <= j < |rest| ==> Rank(cs[0]) < Rank(rest[j])
  {
    if forall i, j :: 0 <= i < j < |cs| ==> Rank(cs[i]) < Rank(cs[j]) {
      forall i, j | 0 <= i < j < |cs[1..]| ensures Rank(cs[1..][i]) < Rank(cs[1..][j]) {
        assert cs[1..][i] == cs[i + 1] && cs[1..][j] == cs[j + 1];
      }
      forall j | 0 <= j < |rest| ensures Rank(cs[0]) < Rank(rest[j]) {
        assert rest[j] in rest;
      }
    }
  }

  function ClauseSql(c: Clause, col: ColumnSpec): Sql {
    match c
    case LengthClause => [Text("(" + ToStr(col.length) + ")")]
    case PrimaryKeyClause => [Text(" PRIMARY KEY")]
    case AutoIncrementClause => [Text(" AUTO_INCREMENT")]
    case NotNullClause => [Text(" NOT NULL")]
    case DefaultClause => [Text(" DEFAULT " + ToStr(col.default))]
  }

  function ClausesSql(cs: seq<Clause>, col: ColumnSpec): (r: Sql)
    ensures |r| == |cs|
    ensures forall i :: 0 <= i < |cs| ==> [r[i]] == ClauseSql(cs[i], col)
  {
    if cs == [] then [] else ClauseSql(cs[0], col) + ClausesSql(cs[1..], col)
  }

  /** One column definition: the escaped name, a space and the upper-cased type, then the
      clauses. Defaults and lengths are interpolated as text, unescaped. */
  function ColumnDefinition(col: ColumnSpec, keyFlags: bool): Sql {
    [Id(col.name), Text(" " + ToUpper(col.typeName))] + ClausesSql(Clauses(col, keyFlags), col)
  }

  /** The definition names exactly its column's identifier and binds nothing. */
  lemma DefinitionIdentifiers(col: ColumnSpec, keyFlags: bool)
    ensures Identifiers(ColumnDefinition(col, keyFlags)) == [col.name]
    ensures Placeholders(ColumnDefinition(col, keyFlags)) == 0
  {
    var tail := ClausesSql(Clauses(col, keyFlags), col);
    ClausesFree(Clauses(col, keyFlags), col);
    IdentifiersAppend([Id(col.name), Text(" " + ToUpper(col.typeName))], tail);
    PlaceholdersAppend([Id(col.name), Text(" " + ToUpper(col.typeName))], tail);
  }

  lemma {:induction false} ClausesFree(cs: seq<Clause>, col: ColumnSpec)
    ensures Identifiers(ClausesSql(cs, col)) == [] && Placeholders(ClausesSql(cs, col)) == 0
  {
    if cs != [] {
      ClausesFree(cs[1..], col);
      IdentifiersAppend(ClauseSql(cs[0], col), ClausesSql(cs[1..], col));
      PlaceholdersAppend(ClauseSql(cs[0], col), ClausesSql(cs[1..], col));
    }
  }

  /** Joi's `nullable: true` default is not written back to the body, so a column spec
      without `nullable` (and not a primary key) is declared `NOT NULL`. */
  lemma AbsentNullableIsNotNull(col: Value, keyFlags: bool)
    requires Buildable(col)
    requires Prop(col, "nullable").Undefined? && !(keyFlags && Truthy(Prop(col, "primaryKey")))
    ensures NotNullClause in Clauses(SpecOf(col), keyFlags)
  {
  }

  /** The validators accept `"false"` for a flag, but the builder reads the unconverted body,
      where any non-empty string is truthy: the column becomes a primary key. */
  lemma StringFlagIsTruthy(col: Value)
    requires ValidColumnSpec(col) && Prop(col, "primaryKey") == Str("false")
    ensures Buildable(col)
    ensures PrimaryKeyClause in Clauses(SpecOf(col), true)
    ensures NotNullClause !in Clauses(SpecOf(col), true)
  {
  }

  /** A length sent as a string is accepted when it holds an integer in range, and is
      interpolated as the string itself, surrounding whitespace and zeros included. */
  lemma StringLengthIsText(col: Value, s: string)
    requires ValidColumnSpec(col) && Prop(col, "length") == Str(s)
    ensures Buildable(col)
    ensures JoiInteger(s).Some? && 1 <= JoiInteger(s).value <= 65535
    ensures LengthClause in Clauses(SpecOf(col), true) && LengthClause in Clauses(SpecOf(col), false)
    ensures ClauseSql(LengthClause, SpecOf(col)) == [Text("(" + s + ")")]
  {
  }

  // ---------------------------------------------------------------------
  // Statements
  // ---------------------------------------------------------------------

  function Columns(body: Value): seq<Value> {
    var cols := Prop(body, "columns");
    if cols.Arr? then cols.items else []
  }

  predicate AllBuildable(cols: seq<Value>) {
    forall i :: 0 <= i < |cols| ==> Buildable(cols[i])
  }

  /** What the validators guarantee the builders. */
  lemma ValidatedIsBuildable(body: Value)
    ensures TableCreationValid(body) && body.Obj? ==> Prop(body, "name").Str? && AllBuildable(Columns(body))
    ensures TableUpdateValid(body) && body.Obj? && Prop(body, "action") == Str("add_column") ==> Buildable(Prop(body, "column"))
    ensures TableUpdateValid(body) && body.Obj? && Prop(body, "action") != Str("add_column") ==> Prop(body, "column").Str?
  {
  }

  function Definitions(cols: seq<Value>): (r: seq<Sql>)
    requires AllBuildable(cols)
    ensures |r| == |cols|
    ensures forall i :: 0 <= i < |cols| ==> r[i] == ColumnDefinition(SpecOf(cols[i]), true)
  {
    seq(|cols|, i requires 0 <= i < |cols| => ColumnDefinition(SpecOf(cols[i]), true))
  }

  /** `CREATE TABLE <name> (<definitions joined by ", ">)` */
  function CreateTableSql(name: string, cols: seq<Value>): Sql
    requires AllBuildable(cols)
  {
    [Text("CREATE TABLE "), Id(name), Text(" (")] + JoinSql(Definitions(cols), Comma) + [Text(")")]
  }

  function ColumnNames(cols: seq<Value>): seq<string>
    requires AllBuildable(cols)
  {
    seq(|cols|, i requires 0 <= i < |cols| => Prop(cols[i], "name").s)
  }

  lemma DefinitionsIdentifiers(cols: seq<Value>)
    requires AllBuildable(cols)
    ensures SumIdentifiers(Definitions(cols)) == ColumnNames(cols)
    ensures SumPlaceholders(Definitions(cols)) == 0
  {
    var defs, names := Definitions(cols), ColumnNames(cols);
    forall i | 0 <= i < |defs| ensures Identifiers(defs[i]) == [names[i]] && Placeholders(defs[i]) == 0 {
      DefinitionIdentifiers(SpecOf(cols[i]), true);
    }
    SingleNames(defs, names);
  }

  /** The CREATE frame around definitions that name `names` and bind nothing. */
  lemma CreateShape(name: string, defs: seq<Sql>, names: seq<string>)
    requires SumIdentifiers(defs) == names && SumPlaceholders(defs) == 0
    ensures Identifiers([Text("CREATE TABLE "), Id(name), Text(" (")] + JoinSql(defs, Comma) + [Text(")")]) == [name] + names
    ensures Placeholders([Text("CREATE TABLE "), Id(name), Text(" (")] + JoinSql(defs, Comma) + [Text(")")]) == 0
  {
    JoinIdentifiers(defs, Comma);
    JoinPlaceholders(defs, Comma);
    Framed("CREATE TABLE ", name, " (");
    Literal(")");
    Append3([Text("CREATE TABLE "), Id(name), Text(" (")], JoinSql(defs, Comma), [Text(")")]);
  }

  /** The CREATE statement escapes the table name and then every column name, in input order,
      and has no placeholder (it is executed without parameters). */
  lemma CreateTableIdentifiers(name: string, cols: seq<Value>)
    requires AllBuildable(cols)
    ensures Identifiers(CreateTableSql(name, cols)) == [name] + ColumnNames(cols)
    ensures Placeholders(CreateTableSql(name, cols)) == 0
  {
    DefinitionsIdentifiers(cols);
    CreateShape(name, Definitions(cols), ColumnNames(cols));
  }

  const MetadataInsert: Sql := [Text("INSERT INTO table_metadata (table_name, display_name) VALUES ("), Param, Text(", "), Param, Text(")")]

  const MetadataTouch: Sql := [Text("UPDATE table_metadata SET updated_at = CURRENT_TIMESTAMP WHERE table_name = "), Param]

  const MetadataDelete: Sql := [Text("DELETE FROM table_metadata WHERE table_name = "), Param]

  lemma MetadataPlaceholders()
    ensures Placeholders(MetadataInsert) == 2 && Placeholders(MetadataTouch) == 1 && Placeholders(MetadataDelete) == 1
  {
    PiecesCons(MetadataInsert[0], MetadataInsert[1..]);
    PiecesCons(Param, MetadataInsert[2..]);
    PiecesCons(MetadataInsert[2], MetadataInsert[3..]);
    PiecesCons(Param, MetadataInsert[4..]);
    PiecesCons(MetadataInsert[4], []);
    PiecesCons(MetadataTouch[0], [Param]);
    PiecesCons(MetadataDelete[0], [Param]);
    PiecesCons(Param, []);
  }

  /** The statements the creation callback runs: the CREATE, then the metadata row with the
      display name defaulting to the table name. */
  function CreateTableWork(name: Value, displayName: Value, cols: seq<Value>): seq<Stmt>
    requires name.Str? && AllBuildable(cols)
  {
    [Stmt(CreateTableSql(name.s, cols), []), Stmt(MetadataInsert, [name, Or(displayName, name)])]
  }

  /** Every statement of table creation binds one parameter per placeholder, and an absent
      display name is recorded as the table name. */
  lemma CreateTableBalanced(name: Value, displayName: Value, cols: seq<Value>)
    requires name.Str? && AllBuildable(cols) && (displayName.Undefined? || ValidDisplayName(displayName))
    ensures forall st :: st in CreateTableWork(name, displayName, cols) ==> Balanced(st)
    ensures CreateTableWork(name, displayName, cols)[1].params[1] == if displayName.Undefined? then name else displayName
  {
    CreateTableIdentifiers(name.s, cols);
    MetadataPlaceholders();
    var create := Stmt(CreateTableSql(name.s, cols), []);
    var metadata := Stmt(MetadataInsert, [name, Or(displayName, name)]);
    assert Balanced(create) && Balanced(metadata);
    assert CreateTableWork(name, displayName, cols) == [create, metadata];
  }

  /** `ALTER TABLE <table> ADD COLUMN <definition>`: no key flags */
  function AddColumnSql(table: string, col: ColumnSpec): Sql {
    [Text("ALTER TABLE "), Id(table), Text(" ADD COLUMN ")] + ColumnDefinition(col, false)
  }

  function DropColumnSql(table: string, column: string): Sql {
    [Text("ALTER TABLE "), Id(table), Text(" DROP COLUMN "), Id(column)]
  }

  /** The statements the update callback runs: the structural change, if any, then the
      metadata timestamp. */
  function UpdateTableWork(table: string, action: string, column: Value): (r: seq<Stmt>)
    requires action == "add_column" ==> Buildable(column)
    requires action == "delete_column" ==> column.Str?
    ensures |r| > 0 && r[|r| - 1] == Stmt(MetadataTouch, [Str(table)])
    ensures action !in ["add_column", "delete_column"] ==> r == [Stmt(MetadataTouch, [Str(table)])]
    ensures action == "delete_column" ==> r == [Stmt(DropColumnSql(table, column.s), []), Stmt(MetadataTouch, [Str(table)])]
    ensures action == "add_column" ==> r == [Stmt(AddColumnSql(table, SpecOf(column)), []), Stmt(MetadataTouch, [Str(table)])]
  {
    (if action == "add_column" then [Stmt(AddColumnSql(table, SpecOf(column)), [])]
     else if action == "delete_column" then [Stmt(DropColumnSql(table, column.s), [])]
     else [])
    + [Stmt(MetadataTouch, [Str(table)])]
  }

  /** An added column never gets ` PRIMARY KEY` or ` AUTO_INCREMENT`, and is `NOT NULL`
      exactly when `nullable` is falsy. */
  lemma AddColumnClauses(col: ColumnSpec)
    ensures PrimaryKeyClause !in Clauses(col, false) && AutoIncrementClause !in Clauses(col, false)
    ensures NotNullClause in Clauses(col, false) <==> !Truthy(col.nullable)
  {
  }

  lemma AddColumnFree(table: string, def: Sql)
    requires Placeholders(def) == 0
    ensures Placeholders([Text("ALTER TABLE "), Id(table), Text(" ADD COLUMN ")] + def) == 0
  {
    Framed("ALTER TABLE ", table, " ADD COLUMN ");
    PlaceholdersAppend([Text("ALTER TABLE "), Id(table), Text(" ADD COLUMN ")], def);
  }

  lemma DropColumnFree(table: string, column: string)
    ensures Placeholders(DropColumnSql(table, column)) == 0
  {
    Framed("ALTER TABLE ", table, " DROP COLUMN ");
    PiecesCons(Id(column), []);
    PlaceholdersAppend([Text("ALTER TABLE "), Id(table), Text(" DROP COLUMN ")], [Id(column)]);
    assert DropColumnSql(table, column) == [Text("ALTER TABLE "), Id(table), Text(" DROP COLUMN ")] + [Id(column)];
  }

  lemma UpdateTableBalanced(table: string, action: string, column: Value)
    requires action == "add_column" ==> Buildable(column)
    requires action == "delete_column" ==> column.Str?
    ensures forall st :: st in UpdateTableWork(table, action, column) ==> Balanced(st)
  {
    MetadataPlaceholders();
    if action == "add_column" {
      DefinitionIdentifiers(SpecOf(column), false);
      AddColumnFree(table, ColumnDefinition(SpecOf(column), false));
    } else if action == "delete_column" {
      DropColumnFree(table, column.s);
    }
  }

  function DropTableSql(table: string): Sql {
    [Text("DROP TABLE IF EXISTS "), Id(table)]
  }

  function DeleteTableWork(table: string): seq<Stmt> {
    [Stmt(DropTableSql(table), []), Stmt(MetadataDelete, [Str(table)])]
  }

  // ---------------------------------------------------------------------
  // Handlers
  // ---------------------------------------------------------------------

  /** Every handler answers a thrown error with 500 and the error's message. */
  function Failure(e: DbError): Response {
    Response(500, ErrorBody(Str(e.message)))
  }

  function Answer(outcome: TxOutcome, success: Response): (r: Response)
    ensures outcome.Committed? ==> r == success
    ensures outcome.Aborted? ==> r == Failure(outcome.err)
  {
    if outcome.Committed? then success else Failure(outcome.err)
  }

  function TablesValue(ts: seq<TableRow>): Value {
    Arr(seq(|ts|, i requires 0 <= i < |ts| => TableRowValue(ts[i])))
  }

  /** `GET /`: the listing; `getTables` never throws. */
  method ListTables(d: Database, cat: Catalog, fault: Option<DbError>, now: Value) returns (resp: Response)
    modifies d
    ensures d.log == old(d.log) + [Execute(TablesStmt)]
    ensures resp == Response(200, TablesValue(Tables(cat, fault, now)))
  {
    var tables := d.GetTables(cat, fault, now);
    resp := Response(200, TablesValue(tables));
  }

  /** `GET /:tableName`: the name with its column descriptors. */
  method DescribeTable(d: Database, table: string, cat: Catalog, fault: Option<DbError>) returns (resp: Response)
    modifies d
    ensures d.log == old(d.log) + [Execute(ColumnsStmt(table))]
    ensures resp == Response(200, Obj([("name", Str(table)), ("columns", ColumnsValue(TableColumns(cat, fault, table)))]))
  {
    var columns := d.GetTableColumns(table, cat, fault);
    resp := Response(200, Obj([("name", Str(table)), ("columns", ColumnsValue(columns))]));
  }

  /** `POST /` after `validateTableCreation`: CREATE TABLE then the metadata row, in one transaction. */
  method CreateTable(d: Database, body: Value, db: Stmt -> Reply, f: TxFaults) returns (resp: Response)
    requires TableCreationValid(body) && body.Obj?
    modifies d
    ensures ValidatedBuildable(body)
    ensures d.log == old(d.log) + RunTransaction(CreateTableWork(Prop(body, "name"), Prop(body, "displayName"), Columns(body)), db, f).events
    ensures resp == Answer(RunTransaction(CreateTableWork(Prop(body, "name"), Prop(body, "displayName"), Columns(body)), db, f).outcome,
                           Response(201, Obj([("message", Str("Table created successfully")), ("name", Prop(body, "name"))])))
  {
    ValidatedIsBuildable(body);
    var work := CreateTableWork(Prop(body, "name"), Prop(body, "displayName"), Columns(body));
    var outcome := d.Transaction(work, db, f);
    resp := Answer(outcome, Response(201, Obj([("message", Str("Table created successfully")), ("name", Prop(body, "name"))])));
  }

  predicate ValidatedBuildable(body: Value) {
    Prop(body, "name").Str? && AllBuildable(Columns(body))
  }

  predicate UpdateBuildable(body: Value) {
    Prop(body, "action").Str?
    && (Prop(body, "action").s == "add_column" ==> Buildable(Prop(body, "column")))
    && (Prop(body, "action").s == "delete_column" ==> Prop(body, "column").Str?)
  }

  /** `PUT /:tableName` after `validateTableUpdate`. */
  method UpdateTable(d: Database, table: string, body: Value, db: Stmt -> Reply, f: TxFaults) returns (resp: Response)
    requires TableUpdateValid(body) && body.Obj?
    modifies d
    ensures UpdateBuildable(body)
    ensures d.log == old(d.log) + RunTransaction(UpdateTableWork(table, Prop(body, "action").s, Prop(body, "column")), db, f).events
    ensures resp == Answer(RunTransaction(UpdateTableWork(table, Prop(body, "action").s, Prop(body, "column")), db, f).outcome,
                           Response(200, MessageBody("Table updated successfully")))
  {
    ValidatedIsBuildable(body);
    var work := UpdateTableWork(table, Prop(body, "action").s, Prop(body, "column"));
    var outcome := d.Transaction(work, db, f);
    resp := Answer(outcome, Response(200, MessageBody("Table updated successfully")));
  }

  /** `DELETE /:tableName`: DROP TABLE IF EXISTS, then the metadata row, in one transaction. */
  method DeleteTable(d: Database, table: string, db: Stmt -> Reply, f: TxFaults) returns (resp: Response)
    modifies d
    ensures d.log == old(d.log) + RunTransaction(DeleteTableWork(table), db, f).events
    ensures resp == Answer(RunTransaction(DeleteTableWork(table), db, f).outcome,
                           Response(200, MessageBody("Table deleted successfully")))
  {
    var outcome := d.Transaction(DeleteTableWork(table), db, f);
    resp := Answer(outcome, Response(200, MessageBody("Table deleted successfully")));
  }

  /** A drop that succeeds runs exactly the DROP and then the metadata DELETE, committed. */
  lemma DeleteTableOrder(table: string, db: Stmt -> Reply, f: TxFaults)
    requires f.acquire.None? && f.begin.None? && f.commit.None?
    requires !db(Stmt(DropTableSql(table), [])).Failed? && !db(Stmt(MetadataDelete, [Str(table)])).Failed?
    ensures RunTransaction(DeleteTableWork(table), db, f).events
         == [Acquire] + [Begin] + [Execute(Stmt(DropTableSql(table), []))] + [Execute(Stmt(MetadataDelete, [Str(table)]))]
            + [Commit] + [Release]
  {
    CommitPath(DeleteTableWork(table), db, f);
  }
}
