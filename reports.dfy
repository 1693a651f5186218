/** The `/api/reports` routes: per-table and global statistics, the custom report builder and
    the table export. */
module Reports {
  import opened Js
  import opened Sql
  import opened Http
  import opened Db

  /** A thrown error's message, or the value computed. */
  datatype Outcome<T> = Ok(value: T) | Threw(message: string)

  /** The message of the `TypeError` thrown by reading `count` of a missing first row. */
  const CountOfUndefined := "Cannot read properties of undefined (reading 'count')"

  function Failure(message: string): Response {
    Response(500, ErrorBody(Str(message)))
  }

  function CountStmt(table: string): Stmt {
    Stmt([Text("SELECT COUNT(*) as count FROM "), Id(table)], [])
  }

  // ---------------------------------------------------------------------
  // GET /stats/:tableName
  // ---------------------------------------------------------------------

  const TableInfoSelect := "SELECT table_name as name, CREATE_TIME as created_at, UPDATE_TIME as updated_at FROM information_schema.tables WHERE table_schema = DATABASE() AND table_name = "

  function TableInfoStmt(table: string): Stmt {
    Stmt([Text(TableInfoSelect), Param], [Str(table)])
  }

  function NullCountStmt(table: string, col: ColumnInfo): Stmt {
    Stmt([Text("SELECT COUNT(*) as count FROM "), Id(table), Text(" WHERE "), Id(col.name), Text(" IS NULL")], [])
  }

  /** `column.nullable === 'YES'`: a boolean is never strictly equal to a string. */
  function NullableFlag(col: ColumnInfo): Value {
    Bool(Bool(col.nullable) == Str("YES"))
  }

  function ColumnStat(col: ColumnInfo, countRow: Value): Value {
    Obj([("name", Str(col.name)), ("type", Str(col.dataType)), ("nullable", NullableFlag(col)),
         ("nullCount", Prop(countRow, "count"))])
  }

  lemma ColumnStatFields(col: ColumnInfo, countRow: Value)
    ensures Get(ColumnStat(col, countRow).fields, "name") == Str(col.name)
    ensures Get(ColumnStat(col, countRow).fields, "nullable") == Bool(false)
  {
    var f := ColumnStat(col, countRow).fields;
    GetCons(f[0], f[1..], "name");
    GetCons(f[0], f[1..], "nullable");
    GetCons(f[1], f[2..], "nullable");
    GetCons(f[2], f[3..], "nullable");
  }

  /** The column loop: one NULL count per column, in order; a failing statement or a missing
      first row throws and ends the loop. */
  function ColumnStats(table: string, cols: seq<ColumnInfo>, db: Stmt -> Reply): Outcome<seq<Value>> {
    if cols == [] then Ok([])
    else
      var pre := ColumnStats(table, cols[..|cols| - 1], db);
      var reply := db(NullCountStmt(table, cols[|cols| - 1]));
      if pre.Threw? then pre
      else if reply.Failed? then Threw(reply.err.message)
      else if RowsOf(reply) == [] then Threw(CountOfUndefined)
      else Ok(pre.value + [ColumnStat(cols[|cols| - 1], RowsOf(reply)[0])])
  }

  function ColumnStatEvents(table: string, cols: seq<ColumnInfo>, db: Stmt -> Reply): seq<Event> {
    if cols == [] then []
    else if ColumnStats(table, cols[..|cols| - 1], db).Threw? then ColumnStatEvents(table, cols[..|cols| - 1], db)
    else ColumnStatEvents(table, cols[..|cols| - 1], db) + [Execute(NullCountStmt(table, cols[|cols| - 1]))]
  }

  /** Once the loop has thrown, later columns change nothing: neither the error nor the
      statements run. */
  lemma {:induction false} ThrownStaysThrown(table: string, cols: seq<ColumnInfo>, db: Stmt -> Reply, k: nat)
    requires k <= |cols| && ColumnStats(table, cols[..k], db).Threw?
    ensures ColumnStats(table, cols, db) == ColumnStats(table, cols[..k], db)
    ensures ColumnStatEvents(table, cols, db) == ColumnStatEvents(table, cols[..k], db)
    decreases |cols| - k
  {
    if k < |cols| {
      var init := cols[..|cols| - 1];
      assert init[..k] == cols[..k];
      ThrownStaysThrown(table, init, db, k);
    } else {
      assert cols[..k] == cols;
    }
  }

  /** A completed loop has one entry per column, in column order, each reporting `nullable` as
      false whatever the column's nullability. */
  lemma {:induction false} ColumnStatsShape(table: string, cols: seq<ColumnInfo>, db: Stmt -> Reply)
    requires ColumnStats(table, cols, db).Ok?
    ensures |ColumnStats(table, cols, db).value| == |cols|
    ensures forall i :: 0 <= i < |cols| ==>
      var e := ColumnStats(table, cols, db).value[i];
      e.Obj? && Get(e.fields, "name") == Str(cols[i].name) && Get(e.fields, "nullable") == Bool(false)
  {
    if cols != [] {
      var init := cols[..|cols| - 1];
      ColumnStatsShape(table, init, db);
      var reply := db(NullCountStmt(table, cols[|cols| - 1]));
      var all := ColumnStats(table, init, db).value + [ColumnStat(cols[|cols| - 1], RowsOf(reply)[0])];
      assert ColumnStats(table, cols, db).value == all;
      forall i | 0 <= i < |cols|
        ensures all[i].Obj? && Get(all[i].fields, "name") == Str(cols[i].name)
             && Get(all[i].fields, "nullable") == Bool(false)
      {
        if i == |init| {
          ColumnStatFields(cols[i], RowsOf(reply)[0]);
        } else {
          assert all[i] == ColumnStats(table, init, db).value[i] && init[i] == cols[i];
        }
      }
    }
  }

  /** `tableInfo` with its timestamps defaulted: `created_at` and `updated_at` keep their place
      when present and fall back to `now` when missing or falsy. */
  function TableInfo(info: Value, now: Value): Value {
    Obj(Put(Put(Spread(info), "created_at", Or(Prop(info, "created_at"), now)),
            "updated_at", Or(Prop(info, "updated_at"), now)))
  }

  /** The events and answer of `GET /stats/:tableName`: the table info, the row count, the
      catalog columns, the column loop, and only then the row count's first row read. */
  function TableStatsRun(table: string, db: Stmt -> Reply, cat: Catalog, fault: Option<DbError>, now: Value)
    : (seq<Event>, Response)
  {
    var info := db(TableInfoStmt(table));
    var count := db(CountStmt(table));
    if info.Failed? then ([Execute(TableInfoStmt(table))], Failure(info.err.message))
    else if count.Failed? then ([Execute(TableInfoStmt(table))] + [Execute(CountStmt(table))], Failure(count.err.message))
    else
      var rest := ColumnsPhase(table, FirstRowOf(info), count, db, TableColumns(cat, fault, table), now);
      ([Execute(TableInfoStmt(table))] + [Execute(CountStmt(table))] + rest.0, rest.1)
  }

  /** The stages after the two counts: the catalog columns, the column loop, the late read
      of the row count's first row. */
  function ColumnsPhase(table: string, infoRow: Value, count: Reply, db: Stmt -> Reply, cols: seq<ColumnInfo>, now: Value)
    : (seq<Event>, Response)
  {
    var stats := ColumnStats(table, cols, db);
    var events := [Execute(ColumnsStmt(table))] + ColumnStatEvents(table, cols, db);
    if stats.Threw? then (events, Failure(stats.message))
    else if RowsOf(count) == [] then (events, Failure(CountOfUndefined))
    else (events, Response(200, StatsBody(infoRow, RowsOf(count)[0], cols, stats.value, now)))
  }

  lemma TimestampKeysDiffer()
    ensures "created_at" != "updated_at"
  {
    assert "created_at"[0] != "updated_at"[0];
  }

  lemma PutTimestamps(f: seq<(string, Value)>, a: Value, b: Value)
    ensures Get(Put(Put(f, "created_at", a), "updated_at", b), "created_at") == a
    ensures Get(Put(Put(f, "created_at", a), "updated_at", b), "updated_at") == b
  {
    TimestampKeysDiffer();
    PutPut(f, "created_at", a, "updated_at", b);
  }

  /** The defaulted timestamps are never falsy when `now` is not. */
  lemma TableInfoTimestamps(info: Value, now: Value)
    requires Truthy(now)
    ensures Truthy(Prop(TableInfo(info, now), "created_at")) && Truthy(Prop(TableInfo(info, now), "updated_at"))
  {
    var a := Or(Prop(info, "created_at"), now);
    var b := Or(Prop(info, "updated_at"), now);
    PutTimestamps(Spread(info), a, b);
  }

  /** The answer of a completed `GET /stats/:tableName`. */
  function StatsBody(infoRow: Value, countRow: Value, cols: seq<ColumnInfo>, stats: seq<Value>, now: Value): Value {
    Obj([("tableInfo", TableInfo(infoRow, now)), ("totalRows", Prop(countRow, "count")),
         ("totalColumns", Num(|cols|)), ("columnStats", Arr(stats))])
  }

  function FirstRowOf(r: Reply): Value {
    if RowsOf(r) == [] then Undefined else RowsOf(r)[0]
  }

  /** A successful answer reports the catalog's column count and one entry per column, in
      order, each with `nullable` false. */
  lemma TableStatsAnswer(table: string, db: Stmt -> Reply, cat: Catalog, fault: Option<DbError>, now: Value)
    requires TableStatsRun(table, db, cat, fault, now).1.status == 200
    ensures var cols := TableColumns(cat, fault, table);
      var stats := ColumnStats(table, cols, db);
      stats.Ok? && RowsOf(db(CountStmt(table))) != []
      && TableStatsRun(table, db, cat, fault, now).1.body
         == StatsBody(FirstRowOf(db(TableInfoStmt(table))), RowsOf(db(CountStmt(table)))[0], cols, stats.value, now)
      && |stats.value| == |cols|
      && (forall i :: 0 <= i < |cols| ==>
            stats.value[i].Obj? && Get(stats.value[i].fields, "name") == Str(cols[i].name)
            && Get(stats.value[i].fields, "nullable") == Bool(false))
  {
    var cols := TableColumns(cat, fault, table);
    assert ColumnStats(table, cols, db).Ok?;
    ColumnStatsShape(table, cols, db);
  }

  /** The column loop of `GET /stats/:tableName`. */
  method CollectColumnStats(d: Database, table: string, cols: seq<ColumnInfo>, db: Stmt -> Reply)
    returns (stats: Outcome<seq<Value>>)
    modifies d
    ensures d.log == old(d.log) + ColumnStatEvents(table, cols, db)
    ensures stats == ColumnStats(table, cols, db)
  {
    var columnStats: seq<Value> := [];
    var i := 0;
    while i < |cols|
      invariant 0 <= i <= |cols|
      invariant ColumnStats(table, cols[..i], db) == Ok(columnStats)
      invariant d.log == old(d.log) + ColumnStatEvents(table, cols[..i], db)
    {
      var prefix := cols[..i + 1];
      assert prefix[..i] == cols[..i] && prefix[i] == cols[i];
      LogAppend(old(d.log), ColumnStatEvents(table, cols[..i], db), [Execute(NullCountStmt(table, cols[i]))]);
      var nullCount := d.Query(NullCountStmt(table, cols[i]), db);
      assert ColumnStatEvents(table, prefix, db) == ColumnStatEvents(table, cols[..i], db) + [Execute(NullCountStmt(table, cols[i]))];
      if nullCount.Failed? {
        ThrownStaysThrown(table, cols, db, i + 1);
        return Threw(nullCount.err.message);
      }
      if RowsOf(nullCount) == [] {
        ThrownStaysThrown(table, cols, db, i + 1);
        return Threw(CountOfUndefined);
      }
      columnStats := columnStats + [ColumnStat(cols[i], RowsOf(nullCount)[0])];
      assert ColumnStats(table, prefix, db) == Ok(columnStats);
      i := i + 1;
    }
    assert cols[..i] == cols;
    return Ok(columnStats);
  }

  /** The three ways a `GET /stats/:tableName` run goes. */
  lemma TableStatsRunCases(table: string, db: Stmt -> Reply, cat: Catalog, fault: Option<DbError>, now: Value)
    ensures var info := db(TableInfoStmt(table));
      info.Failed? ==> TableStatsRun(table, db, cat, fault, now) == ([Execute(TableInfoStmt(table))], Failure(info.err.message))
    ensures var info, count := db(TableInfoStmt(table)), db(CountStmt(table));
      !info.Failed? && count.Failed?
      ==> TableStatsRun(table, db, cat, fault, now)
          == ([Execute(TableInfoStmt(table))] + [Execute(CountStmt(table))], Failure(count.err.message))
    ensures var info, count := db(TableInfoStmt(table)), db(CountStmt(table));
      var rest := ColumnsPhase(table, FirstRowOf(info), count, db, TableColumns(cat, fault, table), now);
      !info.Failed? && !count.Failed?
      ==> TableStatsRun(table, db, cat, fault, now) == ([Execute(TableInfoStmt(table))] + [Execute(CountStmt(table))] + rest.0, rest.1)
  {
  }

  method TableStats(d: Database, table: string, db: Stmt -> Reply, cat: Catalog, fault: Option<DbError>, now: Value)
    returns (resp: Response)
    modifies d
    ensures d.log == old(d.log) + TableStatsRun(table, db, cat, fault, now).0
    ensures resp == TableStatsRun(table, db, cat, fault, now).1
  {
    TableStatsRunCases(table, db, cat, fault, now);
    var tableInfo := d.Query(TableInfoStmt(table), db);
    if tableInfo.Failed? {
      return Failure(tableInfo.err.message);
    }
    var rowCount := d.Query(CountStmt(table), db);
    if rowCount.Failed? {
      return Failure(rowCount.err.message);
    }
    ghost var rest := ColumnsPhase(table, FirstRowOf(tableInfo), rowCount, db, TableColumns(cat, fault, table), now).0;
    LogAppend(old(d.log), [Execute(TableInfoStmt(table))], [Execute(CountStmt(table))]);
    LogAppend(old(d.log) + [Execute(TableInfoStmt(table))], [Execute(CountStmt(table))], rest);
    LogAppend(old(d.log), [Execute(TableInfoStmt(table))] + [Execute(CountStmt(table))], rest);
    resp := FinishTableStats(d, table, FirstRowOf(tableInfo), rowCount, db, cat, fault, now);
  }

  method FinishTableStats(d: Database, table: string, infoRow: Value, rowCount: Reply, db: Stmt -> Reply,
                          cat: Catalog, fault: Option<DbError>, now: Value) returns (resp: Response)
    modifies d
    ensures d.log == old(d.log) + ColumnsPhase(table, infoRow, rowCount, db, TableColumns(cat, fault, table), now).0
    ensures resp == ColumnsPhase(table, infoRow, rowCount, db, TableColumns(cat, fault, table), now).1
  {
    ghost var base := d.log;
    var columns := d.GetTableColumns(table, cat, fault);
    LogAppend(base, [Execute(ColumnsStmt(table))], ColumnStatEvents(table, columns, db));
    var columnStats := CollectColumnStats(d, table, columns, db);
    if columnStats.Threw? {
      return Failure(columnStats.message);
    }
    if RowsOf(rowCount) == [] {
      return Failure(CountOfUndefined);
    }
    resp := Response(200, StatsBody(infoRow, RowsOf(rowCount)[0], columns, columnStats.value, now));
  }

  // ---------------------------------------------------------------------
  // GET /stats
  // ---------------------------------------------------------------------

  /** One table's contribution, when both its count and its first row are available. */
  function TableStat(t: TableRow, db: Stmt -> Reply, cat: Catalog, fault: Option<DbError>): Option<(Value, nat)> {
    var reply := db(CountStmt(t.name));
    if reply.Failed? || RowsOf(reply) == [] then None
    else Some((Prop(RowsOf(reply)[0], "count"), |TableColumns(cat, fault, t.name)|))
  }

  function TableStatEvents(t: TableRow, db: Stmt -> Reply): seq<Event> {
    [Execute(CountStmt(t.name))] + (if db(CountStmt(t.name)).Failed? then [] else [Execute(ColumnsStmt(t.name))])
  }

  datatype Totals = Totals(rows: Value, columns: nat, stats: seq<Value>)

  function StatEntry(t: TableRow, count: Value, n: nat): Value {
    Obj([("name", Str(t.name)), ("rowCount", count), ("columnCount", Num(n))])
  }

  /** The accumulation over the listing; a table whose statements threw is skipped. */
  function Accumulate(ts: seq<TableRow>, db: Stmt -> Reply, cat: Catalog, fault: Option<DbError>): Totals {
    if ts == [] then Totals(Num(0), 0, [])
    else
      var t := ts[|ts| - 1];
      AddStat(Accumulate(ts[..|ts| - 1], db, cat, fault), t, TableStat(t, db, cat, fault))
  }

  /** One table's contribution to the running totals; a failed table adds nothing. */
  function AddStat(pre: Totals, t: TableRow, stat: Option<(Value, nat)>): Totals {
    match stat
    case None => pre
    case Some((count, n)) => Totals(Plus(pre.rows, count), pre.columns + n, pre.stats + [StatEntry(t, count, n)])
  }

  function AccumulateEvents(ts: seq<TableRow>, db: Stmt -> Reply): seq<Event> {
    if ts == [] then [] else AccumulateEvents(ts[..|ts| - 1], db) + TableStatEvents(ts[|ts| - 1], db)
  }

  function GlobalStatsResponse(ts: seq<TableRow>, db: Stmt -> Reply, cat: Catalog, fault: Option<DbError>): Response {
    var acc := Accumulate(ts, db, cat, fault);
    Response(200, Obj([("totalRows", acc.rows), ("totalColumns", Num(acc.columns)),
                       ("tableCount", Num(|ts|)), ("tables", Arr(acc.stats))]))
  }

  function SumField(entries: seq<Value>, k: string): int {
    if entries == [] then 0
    else SumField(entries[..|entries| - 1], k)
         + (var v := Prop(entries[|entries| - 1], k); if v.Num? then v.n else 0)
  }

  predicate NumericCounts(ts: seq<TableRow>, db: Stmt -> Reply, cat: Catalog, fault: Option<DbError>) {
    forall i :: 0 <= i < |ts| && TableStat(ts[i], db, cat, fault).Some? ==> TableStat(ts[i], db, cat, fault).value.0.Num?
  }

  /** The totals are the sums over the listed per-table entries, and only tables whose
      statements succeeded are listed; with numeric counts `totalRows` is a number. */
  lemma TotalsAreEntrySums(ts: seq<TableRow>, db: Stmt -> Reply, cat: Catalog, fault: Option<DbError>)
    ensures var acc := Accumulate(ts, db, cat, fault);
      |acc.stats| <= |ts|
      && acc.columns == SumField(acc.stats, "columnCount")
      && (NumericCounts(ts, db, cat, fault) ==> acc.rows == Num(SumField(acc.stats, "rowCount")))
      && (forall e :: e in acc.stats ==> exists t :: t in ts && TableStat(t, db, cat, fault).Some? && Prop(e, "name") == Str(t.name))
  {
    ColumnsAreSummed(ts, db, cat, fault);
    if NumericCounts(ts, db, cat, fault) {
      RowsAreSummed(ts, db, cat, fault);
    }
    EntriesAreListed(ts, db, cat, fault);
  }

  lemma {:induction false} ColumnsAreSummed(ts: seq<TableRow>, db: Stmt -> Reply, cat: Catalog, fault: Option<DbError>)
    ensures var acc := Accumulate(ts, db, cat, fault);
      |acc.stats| <= |ts| && acc.columns == SumField(acc.stats, "columnCount")
  {
    if ts != [] {
      var init := ts[..|ts| - 1];
      ColumnsAreSummed(init, db, cat, fault);
      var pre := Accumulate(init, db, cat, fault);
      var t := ts[|ts| - 1];
      match TableStat(t, db, cat, fault)
      case None =>
      case Some((count, n)) =>
        StatEntryFields(t, count, n);
        SumFieldSnoc(pre.stats, StatEntry(t, count, n), "columnCount");
    }
  }

  lemma NumericPrefix(ts: seq<TableRow>, db: Stmt -> Reply, cat: Catalog, fault: Option<DbError>)
    requires ts != [] && NumericCounts(ts, db, cat, fault)
    ensures NumericCounts(ts[..|ts| - 1], db, cat, fault)
  {
    var init := ts[..|ts| - 1];
    forall i | 0 <= i < |init| && TableStat(init[i], db, cat, fault).Some?
      ensures TableStat(init[i], db, cat, fault).value.0.Num?
    {
      assert init[i] == ts[i];
    }
  }

  lemma {:induction false} RowsAreSummed(ts: seq<TableRow>, db: Stmt -> Reply, cat: Catalog, fault: Option<DbError>)
    requires NumericCounts(ts, db, cat, fault)
    ensures var acc := Accumulate(ts, db, cat, fault);
      acc.rows == Num(SumField(acc.stats, "rowCount"))
  {
    if ts != [] {
      var init := ts[..|ts| - 1];
      NumericPrefix(ts, db, cat, fault);
      RowsAreSummed(init, db, cat, fault);
      var t := ts[|ts| - 1];
      AddStatSummed(Accumulate(init, db, cat, fault), t, TableStat(t, db, cat, fault));
    }
  }

  /** One table's contribution keeps `rows` equal to the sum of the listed row counts. */
  lemma AddStatSummed(pre: Totals, t: TableRow, stat: Option<(Value, nat)>)
    requires pre.rows == Num(SumField(pre.stats, "rowCount"))
    requires stat.Some? ==> stat.value.0.Num?
    ensures var acc := AddStat(pre, t, stat);
      acc.rows == Num(SumField(acc.stats, "rowCount"))
  {
    match stat
    case None =>
    case Some((count, n)) =>
      StatEntryFields(t, count, n);
      SumFieldSnoc(pre.stats, StatEntry(t, count, n), "rowCount");
  }

  lemma {:induction false} EntriesAreListed(ts: seq<TableRow>, db: Stmt -> Reply, cat: Catalog, fault: Option<DbError>)
    ensures forall e :: e in Accumulate(ts, db, cat, fault).stats
              ==> exists t :: t in ts && TableStat(t, db, cat, fault).Some? && Prop(e, "name") == Str(t.name)
  {
    if ts != [] {
      var init := ts[..|ts| - 1];
      EntriesAreListed(init, db, cat, fault);
      var pre := Accumulate(init, db, cat, fault);
      var t := ts[|ts| - 1];
      forall e | e in Accumulate(ts, db, cat, fault).stats
        ensures exists u :: u in ts && TableStat(u, db, cat, fault).Some? && Prop(e, "name") == Str(u.name)
      {
        if e in pre.stats {
          var u :| u in init && TableStat(u, db, cat, fault).Some? && Prop(e, "name") == Str(u.name);
          assert u in ts;
        } else {
          var (count, n) := TableStat(t, db, cat, fault).value;
          StatEntryFields(t, count, n);
        }
      }
    }
  }

  lemma StatEntryFields(t: TableRow, count: Value, n: nat)
    ensures Prop(StatEntry(t, count, n), "name") == Str(t.name)
    ensures Prop(StatEntry(t, count, n), "rowCount") == count
    ensures Prop(StatEntry(t, count, n), "columnCount") == Num(n)
  {
    var f := StatEntry(t, count, n).fields;
    GetCons(f[0], f[1..], "columnCount");
    GetCons(f[1], f[2..], "columnCount");
    GetCons(f[0], f[1..], "rowCount");
    GetCons(f[1], f[2..], "rowCount");
    GetCons(f[0], f[1..], "name");
  }

  lemma SumFieldSnoc(entries: seq<Value>, e: Value, k: string)
    ensures SumField(entries + [e], k) == SumField(entries, k) + (if Prop(e, k).Num? then Prop(e, k).n else 0)
  {
    assert (entries + [e])[..|entries|] == entries;
  }

  /** One more table adds its statements to the log and, when its count came back, its entry. */
  lemma AccumulateStep(ts: seq<TableRow>, i: nat, db: Stmt -> Reply, cat: Catalog, fault: Option<DbError>)
    requires i < |ts|
    ensures AccumulateEvents(ts[..i + 1], db) == AccumulateEvents(ts[..i], db) + TableStatEvents(ts[i], db)
    ensures Accumulate(ts[..i + 1], db, cat, fault)
         == AddStat(Accumulate(ts[..i], db, cat, fault), ts[i], TableStat(ts[i], db, cat, fault))
  {
    var prefix := ts[..i + 1];
    assert prefix[..|prefix| - 1] == ts[..i] && prefix[|prefix| - 1] == ts[i];
  }

  /** One table's count statement and, when it succeeds, its columns. */
  method StatOne(d: Database, t: TableRow, db: Stmt -> Reply, cat: Catalog, fault: Option<DbError>)
    returns (stat: Option<(Value, nat)>)
    modifies d
    ensures d.log == old(d.log) + TableStatEvents(t, db)
    ensures stat == TableStat(t, db, cat, fault)
  {
    stat := None;
    var rowCount := d.Query(CountStmt(t.name), db);
    if !rowCount.Failed? {
      var columns := d.GetTableColumns(t.name, cat, fault);
      if RowsOf(rowCount) != [] {
        stat := Some((Prop(RowsOf(rowCount)[0], "count"), |columns|));
      }
    }
  }

  /** The loop over the listing. */
  method AccumulateStats(d: Database, ts: seq<TableRow>, db: Stmt -> Reply, cat: Catalog, fault: Option<DbError>)
    returns (acc: Totals)
    modifies d
    ensures d.log == old(d.log) + AccumulateEvents(ts, db)
    ensures acc == Accumulate(ts, db, cat, fault)
  {
    acc := Totals(Num(0), 0, []);
    var i := 0;
    while i < |ts|
      invariant 0 <= i <= |ts|
      invariant acc == Accumulate(ts[..i], db, cat, fault)
      invariant d.log == old(d.log) + AccumulateEvents(ts[..i], db)
    {
      AccumulateStep(ts, i, db, cat, fault);
      LogAppend(old(d.log), AccumulateEvents(ts[..i], db), TableStatEvents(ts[i], db));
      var stat := StatOne(d, ts[i], db, cat, fault);
      acc := AddStat(acc, ts[i], stat);
      i := i + 1;
    }
    assert ts[..i] == ts;
  }

  /** `GET /stats`: `tableCount` is the whole listing, failed tables included. */
  method GlobalStats(d: Database, db: Stmt -> Reply, cat: Catalog, fault: Option<DbError>, now: Value)
    returns (resp: Response)
    modifies d
    ensures d.log == old(d.log) + [Execute(TablesStmt)] + AccumulateEvents(Tables(cat, fault, now), db)
    ensures resp == GlobalStatsResponse(Tables(cat, fault, now), db, cat, fault)
  {
    var tables := d.GetTables(cat, fault, now);
    var acc := AccumulateStats(d, tables, db, cat, fault);
    resp := Response(200, Obj([("totalRows", acc.rows), ("totalColumns", Num(acc.columns)),
                               ("tableCount", Num(|tables|)), ("tables", Arr(acc.stats))]));
  }

  // ---------------------------------------------------------------------
  // POST /generate
  // ---------------------------------------------------------------------

  /** `v.length`: an array's or string's length, an object's own `length` field. */
  function LengthOf(v: Value): Value {
    match v
    case Arr(items) => Num(|items|)
    case Str(s) => Num(|s|)
    case Obj(fields) => Get(fields, "length")
    case _ => Undefined
  }

  /** `!tables || tables.length === 0` */
  predicate MissingTables(tables: Value) {
    !Truthy(tables) || LengthOf(tables) == Num(0)
  }

  /** `tables[0]`: the first element or character, an object's `"0"` field. */
  function FirstOf(tables: Value): Value {
    match tables
    case Arr(items) => if items != [] then items[0] else Undefined
    case Str(s) => if s != "" then Str([s[0]]) else Undefined
    case Obj(fields) => Get(fields, "0")
    case _ => Undefined
  }

  /** How `if (xs && xs.length > 0) xs.map(...)` treats a body field: skipped, mapped over
      its elements, or a `TypeError` because a non-array has no `map`. */
  datatype ListUse = Skip | Items(items: seq<Value>) | NotMappable

  function ListUseOf(v: Value): (u: ListUse)
    ensures u.Items? ==> u.items != [] && v == Arr(u.items)
  {
    var n := LengthOf(v);
    if !Truthy(v) || !(n.Num? && n.n > 0) then Skip
    else if v.Arr? then Items(v.items)
    else NotMappable
  }

  /** The elements the handler maps over: none when the field is skipped. */
  function Used(u: ListUse): seq<Value> {
    if u.Items? then u.items else []
  }

  function NotAFunction(field: string): string {
    field + ".map is not a function"
  }

  /** The message of the `TypeError` thrown by reading `key` of the first `null` or
      `undefined` element, if there is one. */
  function FirstUnreadable(items: seq<Value>, key: string): Option<string> {
    if items == [] then None
    else if items[0].Null? then Some("Cannot read properties of null (reading '" + key + "')")
    else if items[0].Undefined? then Some("Cannot read properties of undefined (reading '" + key + "')")
    else FirstUnreadable(items[1..], key)
  }

  /** The text `escapeId` escapes for each element: `String(v)`; an array element is taken
      whole, not escaped element by element. */
  function Names(vs: seq<Value>): (r: seq<string>)
    ensures |r| == |vs|
  {
    seq(|vs|, i requires 0 <= i < |vs| => ToStr(vs[i]))
  }

  /** The `column` field of each filter or ordering, as `escapeId` sees it. */
  function ColumnsOf(vs: seq<Value>): (r: seq<string>)
    ensures |r| == |vs|
  {
    seq(|vs|, i requires 0 <= i < |vs| => ToStr(Prop(vs[i], "column")))
  }

  /** `filter.operator || '='`, inserted as raw text. */
  function OperatorOf(filter: Value): string {
    var op := Prop(filter, "operator");
    if Truthy(op) then ToStr(op) else "="
  }

  /** `order.direction || 'ASC'`, inserted as raw text. */
  function DirectionOf(order: Value): string {
    var dir := Prop(order, "direction");
    if Truthy(dir) then ToStr(dir) else "ASC"
  }

  function Condition(filter: Value): Sql {
    [Id(ToStr(Prop(filter, "column"))), Text(" " + OperatorOf(filter) + " "), Param]
  }

  function Conditions(filters: seq<Value>): (r: seq<Sql>)
    ensures |r| == |filters|
  {
    seq(|filters|, i requires 0 <= i < |filters| => Condition(filters[i]))
  }

  /** The bound values, one `filter.value` per filter, in filter order. */
  function FilterValues(filters: seq<Value>): (r: seq<Value>)
    ensures |r| == |filters|
  {
    seq(|filters|, i requires 0 <= i < |filters| => Prop(filters[i], "value"))
  }

  function OrderClause(order: Value): Sql {
    [Id(ToStr(Prop(order, "column"))), Text(" " + DirectionOf(order))]
  }

  function OrderClauses(orders: seq<Value>): (r: seq<Sql>)
    ensures |r| == |orders|
  {
    seq(|orders|, i requires 0 <= i < |orders| => OrderClause(orders[i]))
  }

  const And: Sql := [Text(" AND ")]

  function Projection(columns: seq<Value>): Sql {
    if columns == [] then [Text("*")] else JoinSql(IdList(Names(columns)), Comma)
  }

  function WhereSql(filters: seq<Value>): Sql {
    if filters == [] then [] else [Text(" WHERE ")] + JoinSql(Conditions(filters), And)
  }

  function GroupSql(groups: seq<Value>): Sql {
    if groups == [] then [] else [Text(" GROUP BY ")] + JoinSql(IdList(Names(groups)), Comma)
  }

  function OrderSql(orders: seq<Value>): Sql {
    if orders == [] then [] else [Text(" ORDER BY ")] + JoinSql(OrderClauses(orders), Comma)
  }

  function ReportSql(table: Value, columns: seq<Value>, filters: seq<Value>, groups: seq<Value>, orders: seq<Value>): Sql {
    [Text("SELECT ")] + Projection(columns) + [Text(" FROM "), Id(ToStr(table))]
    + WhereSql(filters) + GroupSql(groups) + OrderSql(orders) + [Text(" LIMIT 1000")]
  }

  /** The statement `/generate` runs for a body whose `tables` is present, or the message
      of the error thrown while building it. */
  function ReportStatement(body: Value): Outcome<Stmt> {
    var columns := ListUseOf(Prop(body, "columns"));
    var filters := ListUseOf(Prop(body, "filters"));
    var groups := ListUseOf(Prop(body, "groupBy"));
    var orders := ListUseOf(Prop(body, "orderBy"));
    if columns.NotMappable? then Threw(NotAFunction("columns"))
    else if filters.NotMappable? then Threw(NotAFunction("filters"))
    else if FirstUnreadable(Used(filters), "value").Some? then Threw(FirstUnreadable(Used(filters), "value").value)
    else if groups.NotMappable? then Threw(NotAFunction("groupBy"))
    else if orders.NotMappable? then Threw(NotAFunction("orderBy"))
    else if FirstUnreadable(Used(orders), "column").Some? then Threw(FirstUnreadable(Used(orders), "column").value)
    else
      Ok(Stmt(ReportSql(FirstOf(Prop(body, "tables")), Used(columns), Used(filters), Used(groups), Used(orders)),
              FilterValues(Used(filters))))
  }

  /** The SQL text as the report displays it: the k-th `?` replaced by `'params[k]'`. */
  function Displayed(esc: string -> string, st: Stmt): string {
    Substitute(Render(esc, st.sql), st.params, 0)
  }

  function ReportBody(esc: string -> string, st: Stmt, rows: seq<Value>): Value {
    Obj([("report", Obj([("sql", Str(Displayed(esc, st))), ("rowCount", Num(|rows|)), ("data", Arr(rows))]))])
  }

  lemma {:induction false} ConditionsShape(filters: seq<Value>)
    ensures SumPlaceholders(Conditions(filters)) == |filters|
    ensures SumIdentifiers(Conditions(filters)) == ColumnsOf(filters)
  {
    if filters != [] {
      var c := Conditions(filters);
      assert c[1..] == Conditions(filters[1..]);
      assert c[0] == Condition(filters[0]);
      assert ColumnsOf(filters) == [ToStr(Prop(filters[0], "column"))] + ColumnsOf(filters[1..]);
      ConditionShape(filters[0]);
      ConditionsShape(filters[1..]);
    }
  }

  /** One condition binds one value and names its filter's column. */
  lemma ConditionShape(f: Value)
    ensures Placeholders(Condition(f)) == 1
    ensures Identifiers(Condition(f)) == [ToStr(Prop(f, "column"))]
  {
    PiecesCons(Id(ToStr(Prop(f, "column"))), [Text(" " + OperatorOf(f) + " "), Param]);
    PiecesCons(Text(" " + OperatorOf(f) + " "), [Param]);
    PiecesCons(Param, []);
  }

  lemma OrderClausesShape(orders: seq<Value>)
    ensures SumPlaceholders(OrderClauses(orders)) == 0
    ensures SumIdentifiers(OrderClauses(orders)) == ColumnsOf(orders)
  {
    forall i | 0 <= i < |orders|
      ensures Identifiers(OrderClauses(orders)[i]) == [ColumnsOf(orders)[i]]
      ensures Placeholders(OrderClauses(orders)[i]) == 0
    {
      PiecesCons(Id(ToStr(Prop(orders[i], "column"))), [Text(" " + DirectionOf(orders[i]))]);
      Literal(" " + DirectionOf(orders[i]));
    }
    SingleNames(OrderClauses(orders), ColumnsOf(orders));
  }

  /** `head` followed by the parts joined with `sep`, or nothing when there are no parts. */
  lemma Clause(head: string, parts: seq<Sql>, sep: Sql, n: nat, names: seq<string>)
    requires Placeholders(sep) == 0 && Identifiers(sep) == []
    requires SumPlaceholders(parts) == n && SumIdentifiers(parts) == names
    ensures Placeholders([Text(head)] + JoinSql(parts, sep)) == n
    ensures Identifiers([Text(head)] + JoinSql(parts, sep)) == names
  {
    JoinPlaceholders(parts, sep);
    JoinIdentifiers(parts, sep);
    PiecesCons(Text(head), JoinSql(parts, sep));
  }

  lemma ReportParts(table: Value, columns: seq<Value>, filters: seq<Value>, groups: seq<Value>, orders: seq<Value>)
    ensures Placeholders(Projection(columns)) == 0 && Identifiers(Projection(columns)) == Names(columns)
    ensures Placeholders(WhereSql(filters)) == |filters| && Identifiers(WhereSql(filters)) == ColumnsOf(filters)
    ensures Placeholders(GroupSql(groups)) == 0 && Identifiers(GroupSql(groups)) == Names(groups)
    ensures Placeholders(OrderSql(orders)) == 0 && Identifiers(OrderSql(orders)) == ColumnsOf(orders)
    ensures Placeholders([Text(" FROM "), Id(ToStr(table))]) == 0 && Identifiers([Text(" FROM "), Id(ToStr(table))]) == [ToStr(table)]
  {
    Literal("SELECT ");
    Literal("*");
    Literal(" AND ");
    Literal(", ");
    IdListNoPlaceholders(Names(columns));
    IdListNames(Names(columns));
    if filters != [] {
      ConditionsShape(filters);
      Clause(" WHERE ", Conditions(filters), And, |filters|, ColumnsOf(filters));
    }
    if groups != [] {
      IdListPlaceholders(Names(groups));
      IdListIdentifiers(Names(groups));
      Clause(" GROUP BY ", IdList(Names(groups)), Comma, 0, Names(groups));
    }
    if orders != [] {
      OrderClausesShape(orders);
      Clause(" ORDER BY ", OrderClauses(orders), Comma, 0, ColumnsOf(orders));
    }
    PiecesCons(Text(" FROM "), [Id(ToStr(table))]);
    PiecesCons(Id(ToStr(table)), []);
  }

  lemma Concat7(a: Sql, b: Sql, c: Sql, d: Sql, e: Sql, f: Sql, g: Sql)
    ensures Placeholders(a + b + c + d + e + f + g)
         == Placeholders(a) + Placeholders(b) + Placeholders(c) + Placeholders(d) + Placeholders(e) + Placeholders(f) + Placeholders(g)
    ensures Identifiers(a + b + c + d + e + f + g)
         == Identifiers(a) + Identifiers(b) + Identifiers(c) + Identifiers(d) + Identifiers(e) + Identifiers(f) + Identifiers(g)
  {
    Append3(a, b, c);
    Append3(a + b + c, d, e);
    Append3(a + b + c + d + e, f, g);
  }

  /** Seven fragments whose first and last name nothing and bind nothing. */
  lemma Framed7(a: Sql, b: Sql, c: Sql, d: Sql, e: Sql, f: Sql, g: Sql)
    requires Placeholders(a) == 0 && Identifiers(a) == [] && Placeholders(g) == 0 && Identifiers(g) == []
    ensures Placeholders(a + b + c + d + e + f + g)
         == Placeholders(b) + Placeholders(c) + Placeholders(d) + Placeholders(e) + Placeholders(f)
    ensures Identifiers(a + b + c + d + e + f + g)
         == Identifiers(b) + Identifiers(c) + Identifiers(d) + Identifiers(e) + Identifiers(f)
  {
    Concat7(a, b, c, d, e, f, g);
    var x := Identifiers(b) + Identifiers(c) + Identifiers(d) + Identifiers(e) + Identifiers(f);
    assert Identifiers(a) + Identifiers(b) == Identifiers(b);
    assert Identifiers(a) + Identifiers(b) + Identifiers(c) + Identifiers(d) + Identifiers(e) + Identifiers(f) == x;
    assert x + Identifiers(g) == x;
  }

  lemma ReportSqlShape(t: Value, cs: seq<Value>, fs: seq<Value>, gs: seq<Value>, os: seq<Value>)
    ensures Placeholders(ReportSql(t, cs, fs, gs, os)) == |fs|
    ensures Identifiers(ReportSql(t, cs, fs, gs, os)) == Names(cs) + [ToStr(t)] + ColumnsOf(fs) + Names(gs) + ColumnsOf(os)
  {
    ReportParts(t, cs, fs, gs, os);
    Literal("SELECT ");
    Literal(" LIMIT 1000");
    var a, g: Sql := [Text("SELECT ")], [Text(" LIMIT 1000")];
    var b, c, d, e, f := Projection(cs), [Text(" FROM "), Id(ToStr(t))], WhereSql(fs), GroupSql(gs), OrderSql(os);
    Framed7(a, b, c, d, e, f, g);
    assert ReportSql(t, cs, fs, gs, os) == a + b + c + d + e + f + g;
  }

  /** A statement that builds is the report SQL over the used parts of the body. */
  lemma ReportStatementOk(body: Value)
    requires ReportStatement(body).Ok?
    ensures ReportStatement(body).value
         == Stmt(ReportSql(FirstOf(Prop(body, "tables")), Used(ListUseOf(Prop(body, "columns"))),
                           Used(ListUseOf(Prop(body, "filters"))), Used(ListUseOf(Prop(body, "groupBy"))),
                           Used(ListUseOf(Prop(body, "orderBy")))),
                 FilterValues(Used(ListUseOf(Prop(body, "filters")))))
  {
  }

  /** The report statement has one placeholder per filter, bound to the filters' values in
      order, and names the selected columns, the first table, the filtered columns, the
      grouping columns and the ordering columns, in that order. */
  lemma ReportShape(body: Value)
    requires ReportStatement(body).Ok?
    ensures var st := ReportStatement(body).value;
      var filters := Used(ListUseOf(Prop(body, "filters")));
      Balanced(st) && st.params == FilterValues(filters)
      && Identifiers(st.sql)
         == Names(Used(ListUseOf(Prop(body, "columns")))) + [ToStr(FirstOf(Prop(body, "tables")))]
            + ColumnsOf(filters) + Names(Used(ListUseOf(Prop(body, "groupBy"))))
            + ColumnsOf(Used(ListUseOf(Prop(body, "orderBy"))))
  {
    ReportStatementOk(body);
    ReportSqlShape(FirstOf(Prop(body, "tables")), Used(ListUseOf(Prop(body, "columns"))),
                   Used(ListUseOf(Prop(body, "filters"))), Used(ListUseOf(Prop(body, "groupBy"))),
                   Used(ListUseOf(Prop(body, "orderBy"))));
  }

  /** No filter operator and no ordering direction contains a `?`. */
  predicate PlainOperators(filters: seq<Value>, orders: seq<Value>) {
    (forall i :: 0 <= i < |filters| ==> '?' !in OperatorOf(filters[i]))
    && (forall i :: 0 <= i < |orders| ==> '?' !in DirectionOf(orders[i]))
  }

  lemma TextFree7(a: Sql, b: Sql, c: Sql, d: Sql, e: Sql, f: Sql, g: Sql)
    requires TextFree(a) && TextFree(b) && TextFree(c) && TextFree(d) && TextFree(e) && TextFree(f) && TextFree(g)
    ensures TextFree(a + b + c + d + e + f + g)
  {
    TextFreeAppend(a, b);
    TextFreeAppend(a + b, c);
    TextFreeAppend(a + b + c, d);
    TextFreeAppend(a + b + c + d, e);
    TextFreeAppend(a + b + c + d + e, f);
    TextFreeAppend(a + b + c + d + e + f, g);
  }

  lemma ClauseTextFree(head: string, parts: seq<Sql>, sep: Sql)
    requires '?' !in head && TextFree(sep)
    requires forall i :: 0 <= i < |parts| ==> TextFree(parts[i])
    ensures TextFree([Text(head)] + JoinSql(parts, sep))
  {
    JoinTextFree(parts, sep);
    TextFreeAppend([Text(head)], JoinSql(parts, sep));
  }

  lemma ReportTextFree(t: Value, cs: seq<Value>, fs: seq<Value>, gs: seq<Value>, os: seq<Value>)
    requires PlainOperators(fs, os)
    ensures TextFree(ReportSql(t, cs, fs, gs, os))
  {
    var a, g: Sql := [Text("SELECT ")], [Text(" LIMIT 1000")];
    var b, c, d, e, f := Projection(cs), [Text(" FROM "), Id(ToStr(t))], WhereSql(fs), GroupSql(gs), OrderSql(os);
    ProjectionTextFree(cs);
    WhereTextFree(fs);
    GroupTextFree(gs);
    OrderTextFree(os);
    TextFree7(a, b, c, d, e, f, g);
    assert ReportSql(t, cs, fs, gs, os) == a + b + c + d + e + f + g;
  }

  lemma ProjectionTextFree(cs: seq<Value>)
    ensures TextFree(Projection(cs))
  {
    assert TextFree(Comma);
    if cs != [] {
      JoinTextFree(IdList(Names(cs)), Comma);
    }
  }

  lemma WhereTextFree(fs: seq<Value>)
    requires forall i :: 0 <= i < |fs| ==> '?' !in OperatorOf(fs[i])
    ensures TextFree(WhereSql(fs))
  {
    if fs != [] {
      assert TextFree(And);
      forall i | 0 <= i < |fs| ensures TextFree(Conditions(fs)[i]) {
        assert '?' !in OperatorOf(fs[i]);
      }
      ClauseTextFree(" WHERE ", Conditions(fs), And);
    }
  }

  lemma GroupTextFree(gs: seq<Value>)
    ensures TextFree(GroupSql(gs))
  {
    if gs != [] {
      assert TextFree(Comma);
      ClauseTextFree(" GROUP BY ", IdList(Names(gs)), Comma);
    }
  }

  lemma OrderTextFree(os: seq<Value>)
    requires forall i :: 0 <= i < |os| ==> '?' !in DirectionOf(os[i])
    ensures TextFree(OrderSql(os))
  {
    if os != [] {
      assert TextFree(Comma);
      forall i | 0 <= i < |os| ensures TextFree(OrderClauses(os)[i]) {
        assert '?' !in DirectionOf(os[i]);
      }
      ClauseTextFree(" ORDER BY ", OrderClauses(os), Comma);
    }
  }

  /** When no escaped name, operator or direction contains a `?`, the displayed SQL is the
      statement with each placeholder replaced by its own bound value: the k-th `?` shows
      the k-th filter's value. */
  lemma ReportDisplay(esc: string -> string, body: Value)
    requires ReportStatement(body).Ok? && EscapeFree(esc)
    requires PlainOperators(Used(ListUseOf(Prop(body, "filters"))), Used(ListUseOf(Prop(body, "orderBy"))))
    ensures var st := ReportStatement(body).value;
      Displayed(esc, st) == RenderBound(esc, st.sql, st.params, 0)
  {
    ReportStatementOk(body);
    ReportTextFree(FirstOf(Prop(body, "tables")), Used(ListUseOf(Prop(body, "columns"))),
                   Used(ListUseOf(Prop(body, "filters"))), Used(ListUseOf(Prop(body, "groupBy"))),
                   Used(ListUseOf(Prop(body, "orderBy"))));
    var st := ReportStatement(body).value;
    DisplayBindsPlaceholders(esc, st.sql, st.params, 0);
  }

  lemma {:induction false} JoinKeeps(parts: seq<Sql>, sep: Sql, i: nat, p: Piece)
    requires i < |parts| && p in parts[i]
    ensures p in JoinSql(parts, sep)
  {
    if i > 0 {
      JoinKeeps(parts[1..], sep, i - 1, p);
    }
  }

  /** A filter's operator reaches the SQL text as written, unescaped and unchecked. */
  lemma OperatorVerbatim(body: Value, i: nat)
    requires ReportStatement(body).Ok? && i < |Used(ListUseOf(Prop(body, "filters")))|
    ensures Text(" " + OperatorOf(Used(ListUseOf(Prop(body, "filters")))[i]) + " ") in ReportStatement(body).value.sql
  {
    ReportStatementOk(body);
    var fs := Used(ListUseOf(Prop(body, "filters")));
    var p := Text(" " + OperatorOf(fs[i]) + " ");
    assert p in Conditions(fs)[i];
    JoinKeeps(Conditions(fs), And, i, p);
    assert p in WhereSql(fs);
  }

  /** `filters.map(f => { params.push(f.value); return ... })`: one condition and one bound
      value per filter, stopping at the first filter that is `null` or `undefined`. */
  method BindFilters(fs: seq<Value>) returns (conditions: seq<Sql>, params: seq<Value>, err: Option<string>)
    ensures err == FirstUnreadable(fs, "value")
    ensures err.None? ==> conditions == Conditions(fs) && params == FilterValues(fs)
  {
    conditions, params := [], [];
    var i := 0;
    while i < |fs|
      invariant 0 <= i <= |fs|
      invariant |conditions| == i && |params| == i
      invariant forall j :: 0 <= j < i ==> conditions[j] == Condition(fs[j]) && params[j] == Prop(fs[j], "value")
      invariant FirstUnreadable(fs, "value") == FirstUnreadable(fs[i..], "value")
    {
      assert fs[i..][1..] == fs[i + 1..];
      if fs[i].Null? || fs[i].Undefined? {
        return conditions, params, FirstUnreadable(fs[i..], "value");
      }
      params := params + [Prop(fs[i], "value")];
      conditions := conditions + [Condition(fs[i])];
      i := i + 1;
    }
    assert conditions == Conditions(fs) && params == FilterValues(fs);
    err := None;
  }

  /** Builds the report statement as the route does: `sql +=` clause by clause, with
      `params.push(filter.value)` inside the filter loop. */
  method BuildReport(body: Value) returns (out: Outcome<Stmt>)
    ensures out == ReportStatement(body)
  {
    var tableName := FirstOf(Prop(body, "tables"));
    var columns := ListUseOf(Prop(body, "columns"));
    if columns.NotMappable? {
      return Threw(NotAFunction("columns"));
    }
    var sql: Sql := [Text("SELECT ")] + Projection(Used(columns)) + [Text(" FROM "), Id(ToStr(tableName))];
    var params: seq<Value> := [];
    var filters := ListUseOf(Prop(body, "filters"));
    if filters.NotMappable? {
      return Threw(NotAFunction("filters"));
    }
    var fs := Used(filters);
    var conditions, bound, unreadableFilter := BindFilters(fs);
    if unreadableFilter.Some? {
      return Threw(unreadableFilter.value);
    }
    params := bound;
    var where: Sql := [];
    if fs != [] {
      where := [Text(" WHERE ")] + JoinSql(conditions, And);
    }
    sql := sql + where;
    var groups := ListUseOf(Prop(body, "groupBy"));
    if groups.NotMappable? {
      return Threw(NotAFunction("groupBy"));
    }
    sql := sql + GroupSql(Used(groups));
    var orders := ListUseOf(Prop(body, "orderBy"));
    if orders.NotMappable? {
      return Threw(NotAFunction("orderBy"));
    }
    var unreadable := FirstUnreadable(Used(orders), "column");
    if unreadable.Some? {
      return Threw(unreadable.value);
    }
    sql := sql + OrderSql(Used(orders)) + [Text(" LIMIT 1000")];
    out := Ok(Stmt(sql, params));
  }

  /** `POST /generate`: 400 without tables, 500 when building or running the statement
      throws, otherwise the rows with the displayed SQL and the row count. */
  method Generate(d: Database, body: Value, db: Stmt -> Reply, esc: string -> string) returns (resp: Response)
    modifies d
    ensures MissingTables(Prop(body, "tables"))
        ==> d.log == old(d.log) && resp == Fail(400, "At least one table must be specified")
    ensures !MissingTables(Prop(body, "tables")) && ReportStatement(body).Threw?
        ==> d.log == old(d.log) && resp == Failure(ReportStatement(body).message)
    ensures var st := ReportStatement(body);
      !MissingTables(Prop(body, "tables")) && st.Ok?
      ==> d.log == old(d.log) + [Execute(st.value)]
          && resp == (if db(st.value).Failed? then Failure(db(st.value).err.message)
                      else Response(200, ReportBody(esc, st.value, RowsOf(db(st.value)))))
  {
    if MissingTables(Prop(body, "tables")) {
      return Fail(400, "At least one table must be specified");
    }
    var built := BuildReport(body);
    if built.Threw? {
      return Failure(built.message);
    }
    var results := d.Query(built.value, db);
    if results.Failed? {
      return Failure(results.err.message);
    }
    resp := Response(200, ReportBody(esc, built.value, RowsOf(results)));
  }

  // ---------------------------------------------------------------------
  // GET /export/:tableName
  // ---------------------------------------------------------------------

  datatype Format = Csv | Json | Xlsx

  function FormatName(f: Format): string {
    match f
    case Csv => "csv"
    case Json => "json"
    case Xlsx => "xlsx"
  }

  /** `format = 'csv'` by default, then `format.toLowerCase()` matched against the three
      supported names. */
  function FormatOf(format: Option<string>): Option<Format> {
    var name := ToLower(if format.Some? then format.value else "csv");
    if name == "csv" then Some(Csv)
    else if name == "json" then Some(Json)
    else if name == "xlsx" then Some(Xlsx)
    else None
  }

  function ContentType(f: Format): string {
    match f
    case Csv => "text/csv"
    case Json => "application/json"
    case Xlsx => "application/vnd.openxmlformats-officedocument.spreadsheetml.sheet"
  }

  function Disposition(table: string, f: Format): string {
    "attachment; filename=\"" + table + "." + FormatName(f) + "\""
  }

  /** A file download: its headers and the rows the CSV, JSON or XLSX writer serialises. */
  datatype Download = Download(format: Format, contentType: string, disposition: string, rows: seq<Value>)

  datatype ExportReply = Attachment(file: Download) | Refused(resp: Response)

  function ExportStmt(table: string): Stmt {
    Stmt([Text("SELECT * FROM "), Id(table)], [])
  }

  const UnsupportedFormat := "Unsupported format. Use csv, json, or xlsx"

  lemma LowerCharIdempotent(c: char)
    ensures LowerChar(LowerChar(c)) == LowerChar(c)
  {
  }

  /** Format names are matched without regard to ASCII case. */
  lemma FormatIgnoresCase(s: string)
    ensures FormatOf(Some(ToLower(s))) == FormatOf(Some(s))
  {
    forall i | 0 <= i < |s| ensures ToLower(ToLower(s))[i] == ToLower(s)[i] {
      LowerCharIdempotent(s[i]);
    }
    assert ToLower(ToLower(s)) == ToLower(s);
  }

  /** Each format is selected by its own name, and a missing format means CSV. */
  lemma FormatNames(f: Format)
    ensures FormatOf(Some(FormatName(f))) == Some(f)
    ensures FormatOf(None) == Some(Csv)
  {
    LowerName(f);
    LowerName(Csv);
  }

  lemma LowerName(f: Format)
    ensures ToLower(FormatName(f)) == FormatName(f)
  {
    var s := FormatName(f);
    forall i | 0 <= i < |s| ensures ToLower(s)[i] == s[i] {
    }
    assert ToLower(s) == s;
  }

  /** Only the three names, in some ASCII case, select a format. */
  lemma FormatOnlyNamed(s: string)
    ensures FormatOf(Some(s)).Some? <==> ToLower(s) in {"csv", "json", "xlsx"}
    ensures FormatOf(Some(s)).Some? ==> ToLower(s) == FormatName(FormatOf(Some(s)).value)
  {
  }

  /** The characters SheetJS refuses in a sheet name. */
  const SheetNameBadChars := ":\\/?*[]"

  const SheetNameTooLong := "Sheet names cannot exceed 31 chars"

  const SheetNameBadChar := "Sheet name cannot contain : \\ / ? * [ ]"

  /** Node's refusal of a header value it cannot send. */
  const InvalidDisposition := "Invalid character in header content [\"Content-Disposition\"]"

  /** `book_append_sheet` checks the sheet name, here the table name, and throws when it is
      longer than 31 characters or holds one of the refused characters. */
  function SheetNameError(name: string): (r: Option<string>)
    ensures r.None? <==> |name| <= 31 && forall i :: 0 <= i < |name| ==> name[i] !in SheetNameBadChars
    ensures r.Some? ==> r.value == (if |name| > 31 then SheetNameTooLong else SheetNameBadChar)
  {
    if |name| > 31 then Some(SheetNameTooLong)
    else if exists i :: 0 <= i < |name| && name[i] in SheetNameBadChars then Some(SheetNameBadChar)
    else None
  }

  /** `res.setHeader` accepts only tab, printable ASCII and the Latin-1 range 0x80-0xFF. */
  predicate HeaderSafe(v: string) {
    forall i :: 0 <= i < |v| ==> v[i] == '\t' || (' ' <= v[i] <= '~') || ('\U{0080}' <= v[i] <= '\U{00FF}')
  }

  /** The error a chosen format's branch throws before it sends anything: the sheet name
      check of the XLSX branch comes first, then the `Content-Disposition` header. */
  function ExportError(table: string, f: Format): Option<string> {
    if f == Xlsx && SheetNameError(table).Some? then SheetNameError(table)
    else if !HeaderSafe(Disposition(table, f)) then Some(InvalidDisposition)
    else None
  }

  /** The fixed parts of the header are ASCII, so the header can be sent exactly when the
      table name can. */
  lemma DispositionSafe(table: string, f: Format)
    ensures HeaderSafe(Disposition(table, f)) <==> HeaderSafe(table)
  {
    var pre, post := "attachment; filename=\"", "." + FormatName(f) + "\"";
    assert Disposition(table, f) == pre + table + post;
    if HeaderSafe(table) {
      assert HeaderSafe(pre) && HeaderSafe(post);
      forall i | 0 <= i < |pre + table + post|
        ensures (pre + table + post)[i] == '\t' || (' ' <= (pre + table + post)[i] <= '~')
             || ('\U{0080}' <= (pre + table + post)[i] <= '\U{00FF}')
      {
        if i < |pre| {
          assert (pre + table + post)[i] == pre[i];
        } else if i < |pre| + |table| {
          assert (pre + table + post)[i] == table[i - |pre|];
        } else {
          assert (pre + table + post)[i] == post[i - |pre| - |table|];
        }
      }
    }
    if HeaderSafe(pre + table + post) {
      forall i | 0 <= i < |table| ensures table[i] == '\t' || (' ' <= table[i] <= '~') || ('\U{0080}' <= table[i] <= '\U{00FF}') {
        assert (pre + table + post)[|pre| + i] == table[i];
      }
    }
  }

  /** A table name the creation schema accepts (1 to 64 ASCII letters and digits) exports as
      CSV and JSON, and as XLSX exactly when it has at most 31 characters. */
  lemma AlphanumericExport(table: string, f: Format)
    requires 1 <= |table| <= 64
    requires forall i :: 0 <= i < |table| ==> ('a' <= table[i] <= 'z') || ('A' <= table[i] <= 'Z') || ('0' <= table[i] <= '9')
    ensures ExportError(table, f).Some? <==> f == Xlsx && |table| > 31
    ensures ExportError(table, f).Some? ==> ExportError(table, f) == Some(SheetNameTooLong)
  {
    DispositionSafe(table, f);
    forall i | 0 <= i < |table| ensures table[i] !in SheetNameBadChars {
    }
  }

  /** `GET /export/:tableName`: one SELECT of the whole table; 500 if it fails, 404 for an
      empty table whatever the format, 400 for an unknown format, 500 when the chosen
      branch throws on the table name, and otherwise the download. */
  method Export(d: Database, table: string, format: Option<string>, db: Stmt -> Reply) returns (reply: ExportReply)
    modifies d
    ensures d.log == old(d.log) + [Execute(ExportStmt(table))]
    ensures db(ExportStmt(table)).Failed? ==> reply == Refused(Failure(db(ExportStmt(table)).err.message))
    ensures var data := db(ExportStmt(table));
      !data.Failed? && RowsOf(data) == [] ==> reply == Refused(Fail(404, "No data found"))
    ensures var data := db(ExportStmt(table));
      !data.Failed? && RowsOf(data) != []
      ==> reply == if FormatOf(format).None? then Refused(Fail(400, UnsupportedFormat))
                   else var f := FormatOf(format).value;
                        if ExportError(table, f).Some? then Refused(Failure(ExportError(table, f).value))
                        else Attachment(Download(f, ContentType(f), Disposition(table, f), RowsOf(data)))
  {
    var data := d.Query(ExportStmt(table), db);
    if data.Failed? {
      return Refused(Failure(data.err.message));
    }
    if |RowsOf(data)| == 0 {
      return Refused(Fail(404, "No data found"));
    }
    var f := FormatOf(format);
    if f.None? {
      return Refused(Fail(400, UnsupportedFormat));
    }
    var err := ExportError(table, f.value);
    if err.Some? {
      return Refused(Failure(err.value));
    }
    reply := Attachment(Download(f.value, ContentType(f.value), Disposition(table, f.value), RowsOf(data)));
  }
}
