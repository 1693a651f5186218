/** The `Database` singleton: the thin `query` wrapper, the `transaction`
    unit of work, and the two catalog readers `getTables` and
    `getTableColumns`. The server is not simulated. Every call the code makes
    on the pool or on a connection is appended to an event log, and each
    statement is answered by an oracle `db`. The two catalog queries are
    instead given their SQL meaning over a snapshot of `information_schema`
    and `table_metadata`, so that their ordering and join rules can be
    stated. */
module Db {
  import opened Js
  import opened Sql
  import opened Sorting

  /** A call on the pool or on a transaction connection. */
  datatype Event = Acquire | Begin | Execute(stmt: Stmt) | Commit | Rollback | Release

  /** Which connection-level calls throw, and with what error. */
  datatype TxFaults = TxFaults(acquire: Option<DbError>, begin: Option<DbError>,
                               commit: Option<DbError>, rollback: Option<DbError>)

  /** The callback's statements ran to the end (with their replies), or one threw. */
  datatype WorkResult = WorkOk(replies: seq<Reply>) | WorkFailed(err: DbError)

  /** `transaction` returned the callback's result, or threw `err`. */
  datatype TxOutcome = Committed(replies: seq<Reply>) | Aborted(err: DbError)

  datatype TxRun = TxRun(events: seq<Event>, outcome: TxOutcome)

  function ExecEvents(work: seq<Stmt>): (r: seq<Event>)
    ensures |r| == |work|
    ensures forall i :: 0 <= i < |work| ==> r[i] == Execute(work[i])
  {
    seq(|work|, i requires 0 <= i < |work| => Execute(work[i]))
  }

  function Merge(done: seq<Reply>, rest: WorkResult): WorkResult {
    if rest.WorkOk? then WorkOk(done + rest.replies) else rest
  }

  /** A callback that awaits its statements one after another: it stops at the
      first statement that throws and rethrows that error. */
  function RunWork(work: seq<Stmt>, db: Stmt -> Reply): (seq<Event>, WorkResult) {
    if work == [] then ([], WorkOk([]))
    else if db(work[0]).Failed? then ([Execute(work[0])], WorkFailed(db(work[0]).err))
    else
      var rest := RunWork(work[1..], db);
      ([Execute(work[0])] + rest.0, Merge([db(work[0])], rest.1))
  }

  /** The index of the first statement that throws, or `|work|` when none does. */
  function FirstFailure(work: seq<Stmt>, db: Stmt -> Reply): (k: nat)
    ensures k <= |work|
  {
    if work == [] || db(work[0]).Failed? then 0 else 1 + FirstFailure(work[1..], db)
  }

  function Replies(work: seq<Stmt>, db: Stmt -> Reply): (r: seq<Reply>)
    ensures |r| == |work|
    ensures forall i :: 0 <= i < |work| ==> r[i] == db(work[i])
  {
    seq(|work|, i requires 0 <= i < |work| => db(work[i]))
  }

  /** The callback runs exactly the statements up to and including the first that throws. */
  lemma {:induction false} RunWorkPrefix(work: seq<Stmt>, db: Stmt -> Reply)
    ensures var k := FirstFailure(work, db);
      (forall i :: 0 <= i < k ==> !db(work[i]).Failed?)
      && (k < |work| ==> db(work[k]).Failed?)
      && RunWork(work, db)
         == if k == |work| then (ExecEvents(work), WorkOk(Replies(work, db)))
            else (ExecEvents(work[..k + 1]), WorkFailed(db(work[k]).err))
  {
    if work != [] {
      if db(work[0]).Failed? {
        assert ExecEvents(work[..1]) == [Execute(work[0])];
      } else {
        RunWorkPrefix(work[1..], db);
        var k' := FirstFailure(work[1..], db);
        forall i | 0 <= i < k' + 1 ensures !db(work[i]).Failed? {
          if i > 0 { assert work[i] == work[1..][i - 1]; }
        }
        if k' == |work| - 1 {
          ConsAll(work, db);
        } else {
          ConsUpTo(work, k' + 1);
          assert work[k' + 1] == work[1..][k'];
        }
      }
    }
  }

  lemma ConsAll(work: seq<Stmt>, db: Stmt -> Reply)
    requires work != []
    ensures ExecEvents(work) == [Execute(work[0])] + ExecEvents(work[1..])
    ensures Replies(work, db) == [db(work[0])] + Replies(work[1..], db)
  {
  }

  lemma ConsUpTo(work: seq<Stmt>, j: nat)
    requires 0 < j < |work|
    ensures ExecEvents(work[..j + 1]) == [Execute(work[0])] + ExecEvents(work[1..][..j])
  {
    assert work[1..][..j] == work[1..j + 1];
  }

  /** What `transaction(callback)` does: get a connection, begin, run the callback, then
      commit and release; when the callback or the commit throws, roll back, release and
      rethrow. The `await`s outside the `try` are not guarded: a failing `beginTransaction`
      leaves the connection unreleased, and so does a failing `rollback`, whose error then
      replaces the original one. */
  function RunTransaction(work: seq<Stmt>, db: Stmt -> Reply, f: TxFaults): TxRun {
    if f.acquire.Some? then TxRun([Acquire], Aborted(f.acquire.value))
    else if f.begin.Some? then TxRun([Acquire] + [Begin], Aborted(f.begin.value))
    else
      var (ev, res) := RunWork(work, db);
      var pre := [Acquire] + [Begin] + ev;
      if res.WorkOk? && f.commit.None? then TxRun(pre + [Commit] + [Release], Committed(res.replies))
      else
        var pre2 := if res.WorkOk? then pre + [Commit] else pre;
        var err := if res.WorkOk? then f.commit.value else res.err;
        if f.rollback.Some? then TxRun(pre2 + [Rollback], Aborted(f.rollback.value))
        else TxRun(pre2 + [Rollback] + [Release], Aborted(err))
  }

  // ---------------------------------------------------------------------
  // The catalog, given a meaning
  // ---------------------------------------------------------------------

  /** A row of `information_schema.columns` for the current schema. */
  datatype CatalogColumn = CatalogColumn(table: string, ordinal: int, name: string, dataType: string,
                                         isNullable: string, columnDefault: Value, maxLength: Value,
                                         key: string)

  /** A row of `information_schema.tables` for the current schema. */
  datatype PhysicalTable = PhysicalTable(name: string, tableRows: Value)

  /** A row of `table_metadata`; SQL NULL is `Null`. */
  datatype MetaRow = MetaRow(tableName: string, displayName: Value, createdAt: Value)

  datatype Catalog = Catalog(tables: seq<PhysicalTable>, columns: seq<CatalogColumn>, metadata: seq<MetaRow>)

  /** A column descriptor as `getTableColumns` returns it. */
  datatype ColumnInfo = ColumnInfo(name: string, dataType: string, nullable: bool, defaultValue: Value,
                                   maxLength: Value, primaryKey: bool, autoIncrement: bool)

  /** A row of the `getTables` listing. */
  datatype TableRow = TableRow(name: string, displayName: Value, rowCount: Value, createdAt: Value)

  /** A column descriptor as the JSON object the routes send. */
  function ColumnInfoValue(c: ColumnInfo): Value {
    Obj([("name", Str(c.name)), ("type", Str(c.dataType)), ("nullable", Bool(c.nullable)),
         ("default", c.defaultValue), ("maxLength", c.maxLength), ("primaryKey", Bool(c.primaryKey)),
         ("autoIncrement", Bool(c.autoIncrement))])
  }

  function ColumnsValue(cs: seq<ColumnInfo>): Value {
    Arr(seq(|cs|, i requires 0 <= i < |cs| => ColumnInfoValue(cs[i])))
  }

  /** A listing row as the JSON object the routes send. */
  function TableRowValue(t: TableRow): Value {
    Obj([("name", Str(t.name)), ("display_name", t.displayName), ("row_count", t.rowCount), ("created_at", t.createdAt)])
  }

  const TablesSelect: string := "SELECT t.table_name as name, COALESCE(tm.display_name, t.table_name) as display_name, t.table_rows as row_count, COALESCE(tm.created_at, NOW()) as created_at FROM information_schema.tables t LEFT JOIN table_metadata tm ON t.table_name = tm.table_name WHERE t.table_schema = DATABASE() AND t.table_name != 'table_metadata' ORDER BY t.table_name"

  const TablesStmt: Stmt := Stmt([Text(TablesSelect)], [])

  const ColumnsSelect: string := "SELECT column_name as name, data_type as type, is_nullable as nullable, column_default as defaultValue, character_maximum_length as maxLength, column_key as `key` FROM information_schema.columns WHERE table_schema = DATABASE() AND table_name = "

  function ColumnsStmt(table: string): Stmt {
    Stmt([Text(ColumnsSelect),
          Param, Text(" ORDER BY ordinal_position")], [Str(table)])
  }

  /** The mapping of one catalog row; only a primary key named `id` counts as auto-increment. */
  function ToColumnInfo(c: CatalogColumn): (r: ColumnInfo)
    ensures r.name == c.name && r.dataType == c.dataType
    ensures r.nullable <==> c.isNullable == "YES"
    ensures r.primaryKey <==> c.key == "PRI"
    ensures r.autoIncrement <==> r.primaryKey && c.name == "id"
  {
    ColumnInfo(c.name, c.dataType, c.isNullable == "YES", c.columnDefault, c.maxLength,
               c.key == "PRI", c.key == "PRI" && c.name == "id")
  }

  function OrdinalLe(): (CatalogColumn, CatalogColumn) -> bool {
    (a: CatalogColumn, b: CatalogColumn) => a.ordinal <= b.ordinal
  }

  function ColumnsOf(cs: seq<CatalogColumn>, table: string): (r: seq<CatalogColumn>)
    ensures forall c :: c in r <==> c in cs && c.table == table
  {
    if cs == [] then []
    else (if cs[0].table == table then [cs[0]] else []) + ColumnsOf(cs[1..], table)
  }

  /** The rows `WHERE table_name = ? ORDER BY ordinal_position` selects. */
  function OrderedColumns(cs: seq<CatalogColumn>, table: string): seq<CatalogColumn> {
    Sort(OrdinalLe(), ColumnsOf(cs, table))
  }

  /** The selected rows are exactly the table's catalog rows, in ordinal order. */
  lemma OrderedColumnsSpec(cs: seq<CatalogColumn>, table: string)
    ensures multiset(OrderedColumns(cs, table)) == multiset(ColumnsOf(cs, table))
    ensures forall i, j :: 0 <= i < j < |OrderedColumns(cs, table)|
              ==> OrderedColumns(cs, table)[i].ordinal <= OrderedColumns(cs, table)[j].ordinal
  {
    SortCorrect(OrdinalLe(), ColumnsOf(cs, table));
  }

  /** `getTableColumns(table)`: the mapped rows; `[]` when the query throws. */
  function TableColumns(cat: Catalog, fault: Option<DbError>, table: string): seq<ColumnInfo> {
    if fault.Some? then []
    else
      var rows := OrderedColumns(cat.columns, table);
      seq(|rows|, i requires 0 <= i < |rows| => ToColumnInfo(rows[i]))
  }

  /** The descriptors come in ordinal order, one per catalog row of the table, and an error
      yields none. */
  lemma TableColumnsSpec(cat: Catalog, fault: Option<DbError>, table: string)
    ensures fault.Some? ==> TableColumns(cat, fault, table) == []
    ensures fault.None? ==> |TableColumns(cat, fault, table)| == |ColumnsOf(cat.columns, table)|
    ensures fault.None?
        ==> forall i, j :: 0 <= i < j < |TableColumns(cat, fault, table)|
              ==> OrderedColumns(cat.columns, table)[i].ordinal <= OrderedColumns(cat.columns, table)[j].ordinal
                  && TableColumns(cat, fault, table)[i] == ToColumnInfo(OrderedColumns(cat.columns, table)[i])
  {
    OrderedColumnsSpec(cat.columns, table);
    assert |multiset(OrderedColumns(cat.columns, table))| == |multiset(ColumnsOf(cat.columns, table))|;
  }

  /** Every column of the table is described, one entry per catalog row. */
  lemma TableColumnsComplete(cat: Catalog, table: string, c: CatalogColumn)
    requires c in cat.columns && c.table == table
    ensures ToColumnInfo(c) in TableColumns(cat, None, table)
  {
    var rows := OrderedColumns(cat.columns, table);
    OrderedColumnsSpec(cat.columns, table);
    assert c in multiset(rows);
    var i :| 0 <= i < |rows| && rows[i] == c;
    assert TableColumns(cat, None, table)[i] == ToColumnInfo(c);
  }

  /** SQL `COALESCE(v, d)` */
  function Coalesce(v: Value, d: Value): Value {
    if v.Null? then d else v
  }

  function MetaFor(meta: seq<MetaRow>, name: string): (r: seq<MetaRow>)
    ensures forall m :: m in r <==> m in meta && m.tableName == name
  {
    if meta == [] then []
    else (if meta[0].tableName == name then [meta[0]] else []) + MetaFor(meta[1..], name)
  }

  /** The `LEFT JOIN` of one physical table with its metadata rows. */
  function Joined(t: PhysicalTable, meta: seq<MetaRow>, now: Value): (r: seq<TableRow>)
    ensures |r| > 0
    ensures forall i :: 0 <= i < |r| ==> r[i].name == t.name && r[i].rowCount == t.tableRows
  {
    var ms := MetaFor(meta, t.name);
    if ms == [] then [TableRow(t.name, Str(t.name), t.tableRows, now)] else
      seq(|ms|, i requires 0 <= i < |ms| =>
      TableRow(t.name, Coalesce(ms[i].displayName, Str(t.name)), t.tableRows, Coalesce(ms[i].createdAt, now)))
  }

  function JoinAll(ts: seq<PhysicalTable>, meta: seq<MetaRow>, now: Value): seq<TableRow> {
    if ts == [] then []
    else (if ts[0].name != "table_metadata" then Joined(ts[0], meta, now) else []) + JoinAll(ts[1..], meta, now)
  }

  /** Code-point order on strings. */
  predicate StrLe(a: string, b: string) {
    a == [] || (b != [] && (a[0] < b[0] || (a[0] == b[0] && StrLe(a[1..], b[1..]))))
  }

  lemma {:induction false} StrLeTotal(a: string, b: string)
    ensures StrLe(a, b) || StrLe(b, a)
  {
    if a != [] && b != [] && a[0] == b[0] {
      StrLeTotal(a[1..], b[1..]);
    }
  }

  lemma {:induction false} StrLeTransitive(a: string, b: string, c: string)
    requires StrLe(a, b) && StrLe(b, c)
    ensures StrLe(a, c)
  {
    if a != [] && b != [] && c != [] && a[0] == b[0] && b[0] == c[0] {
      StrLeTransitive(a[1..], b[1..], c[1..]);
    }
  }

  function NameLe(): (TableRow, TableRow) -> bool {
    (a: TableRow, b: TableRow) => StrLe(a.name, b.name)
  }

  lemma NameLePreorder()
    ensures Total(NameLe()) && Transitive(NameLe())
  {
    forall a: TableRow, b: TableRow ensures NameLe()(a, b) || NameLe()(b, a) {
      StrLeTotal(a.name, b.name);
    }
    forall a: TableRow, b: TableRow, c: TableRow | NameLe()(a, b) && NameLe()(b, c)
      ensures NameLe()(a, c)
    {
      StrLeTransitive(a.name, b.name, c.name);
    }
  }

  /** `getTables()`: the joined listing ordered by table name; `[]` when the query throws. */
  function Tables(cat: Catalog, fault: Option<DbError>, now: Value): seq<TableRow> {
    if fault.Some? then [] else Sort(NameLe(), JoinAll(cat.tables, cat.metadata, now))
  }

  /** The listing is the joined rows, each once, ordered by name; an error yields none. */
  lemma TablesSpec(cat: Catalog, fault: Option<DbError>, now: Value)
    ensures fault.Some? ==> Tables(cat, fault, now) == []
    ensures fault.None? ==> multiset(Tables(cat, fault, now)) == multiset(JoinAll(cat.tables, cat.metadata, now))
    ensures forall i, j :: 0 <= i < j < |Tables(cat, fault, now)|
              ==> StrLe(Tables(cat, fault, now)[i].name, Tables(cat, fault, now)[j].name)
  {
    if fault.None? {
      NameLePreorder();
      SortCorrect(NameLe(), JoinAll(cat.tables, cat.metadata, now));
    }
  }

  lemma {:induction false} JoinAllNames(ts: seq<PhysicalTable>, meta: seq<MetaRow>, now: Value, name: string)
    ensures (exists r :: r in JoinAll(ts, meta, now) && r.name == name)
        <==> name != "table_metadata" && exists t :: t in ts && t.name == name
  {
    if ts != [] {
      JoinAllNames(ts[1..], meta, now, name);
      var head := if ts[0].name != "table_metadata" then Joined(ts[0], meta, now) else [];
      assert JoinAll(ts, meta, now) == head + JoinAll(ts[1..], meta, now);
      if ts[0].name == name && name != "table_metadata" {
        assert head[0] in JoinAll(ts, meta, now);
      }
      if exists r :: r in JoinAll(ts, meta, now) && r.name == name {
        var r :| r in JoinAll(ts, meta, now) && r.name == name;
        if r in head {
          assert ts[0] in ts;
        } else {
          var t :| t in ts[1..] && t.name == name;
          assert t in ts;
        }
      }
      if name != "table_metadata" && exists t :: t in ts && t.name == name {
        var t :| t in ts && t.name == name;
        if t != ts[0] {
          assert t in ts[1..];
          var r :| r in JoinAll(ts[1..], meta, now) && r.name == name;
          assert r in JoinAll(ts, meta, now);
        }
      }
    }
  }

  /** The listing names exactly the physical tables other than `table_metadata`. */
  lemma TablesListed(cat: Catalog, now: Value, name: string)
    ensures (exists r :: r in Tables(cat, None, now) && r.name == name)
        <==> name != "table_metadata" && exists t :: t in cat.tables && t.name == name
  {
    JoinAllNames(cat.tables, cat.metadata, now, name);
    TablesSpec(cat, None, now);
    var r := Tables(cat, None, now);
    var j := JoinAll(cat.tables, cat.metadata, now);
    assert forall x :: x in r <==> x in j by {
      forall x ensures x in r <==> x in j {
        assert x in r <==> x in multiset(r);
        assert x in j <==> x in multiset(j);
      }
    }
  }

  /** A table without metadata is listed under its own name, created "now". */
  lemma UnregisteredTableDefaults(t: PhysicalTable, meta: seq<MetaRow>, now: Value)
    requires forall m :: m in meta ==> m.tableName != t.name
    ensures Joined(t, meta, now) == [TableRow(t.name, Str(t.name), t.tableRows, now)]
  {
    if MetaFor(meta, t.name) != [] {
      assert MetaFor(meta, t.name)[0] in MetaFor(meta, t.name);
    }
  }

  /** A registered table shows its display name unless that is NULL. */
  lemma RegisteredTableDisplayName(t: PhysicalTable, m: MetaRow, now: Value)
    requires m.tableName == t.name
    ensures Joined(t, [m], now) == [TableRow(t.name, if m.displayName.Null? then Str(t.name) else m.displayName,
                                             t.tableRows, if m.createdAt.Null? then now else m.createdAt)]
  {
    assert MetaFor([m], t.name) == [m];
  }

  // ---------------------------------------------------------------------
  // The singleton
  // ---------------------------------------------------------------------

  /** Appending to a log in two steps is appending once. */
  lemma LogAppend(base: seq<Event>, a: seq<Event>, b: seq<Event>)
    ensures (base + a) + b == base + (a + b)
  {
  }

  class Database {
    /** Every pool and connection call made so far, in order. */
    var log: seq<Event>

    constructor()
      ensures log == []
    {
      log := [];
    }

    /** `query(sql, params)`: one statement on the pool; a thrown error propagates. */
    method Query(stmt: Stmt, db: Stmt -> Reply) returns (reply: Reply)
      modifies this
      ensures log == old(log) + [Execute(stmt)]
      ensures reply == db(stmt)
    {
      log := log + [Execute(stmt)];
      reply := db(stmt);
    }

    /** `getTableColumns(table)` */
    method GetTableColumns(table: string, cat: Catalog, fault: Option<DbError>) returns (cols: seq<ColumnInfo>)
      modifies this
      ensures log == old(log) + [Execute(ColumnsStmt(table))]
      ensures cols == TableColumns(cat, fault, table)
    {
      log := log + [Execute(ColumnsStmt(table))];
      cols := TableColumns(cat, fault, table);
    }

    /** `getTables()` */
    method GetTables(cat: Catalog, fault: Option<DbError>, now: Value) returns (tables: seq<TableRow>)
      modifies this
      ensures log == old(log) + [Execute(TablesStmt)]
      ensures tables == Tables(cat, fault, now)
    {
      log := log + [Execute(TablesStmt)];
      tables := Tables(cat, fault, now);
    }

    /** The callback: `await connection.execute(...)` for each statement in turn; the first
        statement that throws ends it. */
    method RunCallback(work: seq<Stmt>, db: Stmt -> Reply) returns (result: WorkResult)
      modifies this
      ensures log == old(log) + RunWork(work, db).0
      ensures result == RunWork(work, db).1
    {
      RunWorkPrefix(work, db);
      var replies: seq<Reply> := [];
      var i := 0;
      while i < |work|
        invariant 0 <= i <= |work| && i <= FirstFailure(work, db)
        invariant log == old(log) + ExecEvents(work[..i])
        invariant replies == Replies(work[..i], db)
      {
        var reply := db(work[i]);
        assert ExecEvents(work[..i + 1]) == ExecEvents(work[..i]) + [Execute(work[i])];
        log := log + [Execute(work[i])];
        if reply.Failed? {
          return WorkFailed(reply.err);
        }
        assert Replies(work[..i + 1], db) == Replies(work[..i], db) + [reply];
        replies := replies + [reply];
        i := i + 1;
      }
      assert work[..i] == work;
      return WorkOk(replies);
    }

    /** `transaction(callback)`, the callback running `work` on the connection. */
    method Transaction(work: seq<Stmt>, db: Stmt -> Reply, f: TxFaults) returns (outcome: TxOutcome)
      modifies this
      ensures log == old(log) + RunTransaction(work, db, f).events
      ensures outcome == RunTransaction(work, db, f).outcome
    {
      ghost var trace := [Acquire];
      log := log + [Acquire];
      if f.acquire.Some? {
        return Aborted(f.acquire.value);
      }
      LogAppend(old(log), trace, [Begin]);
      trace := trace + [Begin];
      log := log + [Begin];
      if f.begin.Some? {
        return Aborted(f.begin.value);
      }
      var res := RunCallback(work, db);
      LogAppend(old(log), trace, RunWork(work, db).0);
      trace := trace + RunWork(work, db).0;
      var err: DbError;
      if res.WorkOk? {
        LogAppend(old(log), trace, [Commit]);
        trace := trace + [Commit];
        log := log + [Commit];
        if f.commit.None? {
          LogAppend(old(log), trace, [Release]);
          log := log + [Release];
          return Committed(res.replies);
        }
        err := f.commit.value;
      } else {
        err := res.err;
      }
      LogAppend(old(log), trace, [Rollback]);
      trace := trace + [Rollback];
      log := log + [Rollback];
      if f.rollback.Some? {
        return Aborted(f.rollback.value);
      }
      LogAppend(old(log), trace, [Release]);
      log := log + [Release];
      return Aborted(err);
    }
  }

  // ---------------------------------------------------------------------
  // Properties of the unit of work
  // ---------------------------------------------------------------------

  function ReleaseCount(ev: seq<Event>): nat {
    if ev == [] then 0 else (if ev[0] == Release then 1 else 0) + ReleaseCount(ev[1..])
  }

  lemma {:induction false} ReleaseCountAppend(a: seq<Event>, b: seq<Event>)
    ensures ReleaseCount(a + b) == ReleaseCount(a) + ReleaseCount(b)
  {
    if a != [] {
      assert (a + b)[1..] == a[1..] + b;
      ReleaseCountAppend(a[1..], b);
    } else {
      assert a + b == b;
    }
  }

  lemma {:induction false} NoReleaseInWork(work: seq<Stmt>)
    ensures ReleaseCount(ExecEvents(work)) == 0
  {
    if work != [] {
      assert ExecEvents(work) == [Execute(work[0])] + ExecEvents(work[1..]);
      ReleaseCountAppend([Execute(work[0])], ExecEvents(work[1..]));
      NoReleaseInWork(work[1..]);
    }
  }

  /** Success: begin, every statement in order, commit, release, and the callback's replies. */
  lemma CommitPath(work: seq<Stmt>, db: Stmt -> Reply, f: TxFaults)
    requires f.acquire.None? && f.begin.None? && f.commit.None?
    requires forall i :: 0 <= i < |work| ==> !db(work[i]).Failed?
    ensures RunTransaction(work, db, f)
         == TxRun([Acquire] + [Begin] + ExecEvents(work) + [Commit] + [Release], Committed(Replies(work, db)))
  {
    RunWorkPrefix(work, db);
  }

  /** A transaction commits exactly when acquire, begin, every statement and the commit
      succeed; otherwise it throws. */
  lemma CommitsIff(work: seq<Stmt>, db: Stmt -> Reply, f: TxFaults)
    ensures RunTransaction(work, db, f).outcome.Committed?
        <==> f.acquire.None? && f.begin.None? && f.commit.None?
             && forall i :: 0 <= i < |work| ==> !db(work[i]).Failed?
  {
    RunWorkPrefix(work, db);
  }

  /** The statements of a unit of work never release the connection. */
  lemma WorkNeverReleases(work: seq<Stmt>, db: Stmt -> Reply)
    ensures ReleaseCount(RunWork(work, db).0) == 0
  {
    RunWorkPrefix(work, db);
    var k := FirstFailure(work, db);
    if k == |work| {
      NoReleaseInWork(work);
    } else {
      NoReleaseInWork(work[..k + 1]);
    }
  }

  /** The releases of every way a transaction can end, after work that releases nothing. */
  lemma ReleasesAfter(ev: seq<Event>)
    requires ReleaseCount(ev) == 0
    ensures ReleaseCount([Acquire]) == 0 && ReleaseCount([Acquire] + [Begin]) == 0
    ensures var pre := [Acquire] + [Begin] + ev;
      ReleaseCount(pre + [Commit] + [Release]) == 1
      && ReleaseCount(pre + [Rollback]) == 0 && ReleaseCount(pre + [Rollback] + [Release]) == 1
      && ReleaseCount(pre + [Commit] + [Rollback]) == 0 && ReleaseCount(pre + [Commit] + [Rollback] + [Release]) == 1
  {
    var one := [Release];
    assert ReleaseCount(one) == 1 by {
      assert one[1..] == [];
    }
    ReleaseCountAppend([Acquire], [Begin]);
    var pre := [Acquire] + [Begin] + ev;
    ReleaseCountAppend([Acquire] + [Begin], ev);
    ReleaseCountAppend(pre, [Commit]);
    ReleaseCountAppend(pre + [Commit], one);
    ReleaseCountAppend(pre, [Rollback]);
    ReleaseCountAppend(pre + [Rollback], one);
    ReleaseCountAppend(pre + [Commit], [Rollback]);
    ReleaseCountAppend(pre + [Commit] + [Rollback], one);
  }

  /** Once `beginTransaction` has succeeded, the connection is released exactly once,
      unless a rollback was needed and itself threw; before that it is never released. */
  lemma ReleasedOnce(work: seq<Stmt>, db: Stmt -> Reply, f: TxFaults)
    ensures var run := RunTransaction(work, db, f);
      ReleaseCount(run.events)
        == (if f.acquire.None? && f.begin.None? && (run.outcome.Committed? || f.rollback.None?) then 1 else 0)
  {
    WorkNeverReleases(work, db);
    ReleasesAfter(RunWork(work, db).0);
  }

  /** When the k-th statement is the first to throw, the statements after it never run, the
      transaction rolls back and releases, and the same error is rethrown (provided the
      rollback succeeds; otherwise the rollback's error is thrown instead). */
  lemma RethrowsSameError(work: seq<Stmt>, db: Stmt -> Reply, f: TxFaults, k: nat)
    requires f.acquire.None? && f.begin.None?
    requires k < |work| && db(work[k]).Failed?
    requires forall i :: 0 <= i < k ==> !db(work[i]).Failed?
    ensures RunTransaction(work, db, f)
         == if f.rollback.None?
            then TxRun([Acquire] + [Begin] + ExecEvents(work[..k + 1]) + [Rollback] + [Release], Aborted(db(work[k]).err))
            else TxRun([Acquire] + [Begin] + ExecEvents(work[..k + 1]) + [Rollback], Aborted(f.rollback.value))
  {
    RunWorkPrefix(work, db);
  }

  /** A failing `beginTransaction` is rethrown and the connection is never released. */
  lemma BeginFailureLeaks(work: seq<Stmt>, db: Stmt -> Reply, f: TxFaults)
    requires f.acquire.None? && f.begin.Some?
    ensures RunTransaction(work, db, f) == TxRun([Acquire] + [Begin], Aborted(f.begin.value))
    ensures ReleaseCount(RunTransaction(work, db, f).events) == 0
  {
    ReleasesAfter([]);
  }
}
