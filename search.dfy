/** The `/api/search` routes: a LIKE search over one table's text columns, and a global
    search over every table ranked by a relevance score. */
module Search {
  import opened Js
  import opened Sql
  import opened Http
  import opened Sorting
  import opened Db

  // ---------------------------------------------------------------------
  // Searchable columns and the LIKE statement
  // ---------------------------------------------------------------------

  predicate IsSearchable(c: ColumnInfo) {
    ToLower(c.dataType) in ["varchar", "text", "char"]
  }

  /** `columns.filter(...)`: the searchable columns, in catalog order. */
  function Searchable(cols: seq<ColumnInfo>): (r: seq<ColumnInfo>)
    ensures forall c :: c in r <==> c in cols && IsSearchable(c)
    ensures |r| <= |cols|
  {
    if cols == [] then []
    else (if IsSearchable(cols[0]) then [cols[0]] else []) + Searchable(cols[1..])
  }

  /** The filter keeps the catalog's order: it commutes with concatenation. */
  lemma {:induction false} SearchableAppend(a: seq<ColumnInfo>, b: seq<ColumnInfo>)
    ensures Searchable(a + b) == Searchable(a) + Searchable(b)
  {
    if a == [] {
      assert a + b == b;
    } else {
      assert (a + b)[1..] == a[1..] + b;
      SearchableAppend(a[1..], b);
    }
  }

  function Conditions(cols: seq<ColumnInfo>): (r: seq<Sql>)
    ensures |r| == |cols|
    ensures forall i :: 0 <= i < |cols| ==> r[i] == [Id(cols[i].name), Text(" LIKE "), Param]
  {
    seq(|cols|, i requires 0 <= i < |cols| => [Id(cols[i].name), Text(" LIKE "), Param])
  }

  const OrSep: Sql := [Text(" OR ")]

  function SearchSql(table: string, cols: seq<ColumnInfo>): Sql {
    [Text("SELECT * FROM "), Id(table), Text(" WHERE ")] + JoinSql(Conditions(cols), OrSep) + [Text(" LIMIT "), Param]
  }

  /** `%query%`, once per searchable column. */
  function Patterns(q: string, n: nat): (r: seq<Value>)
    ensures |r| == n && forall i :: 0 <= i < n ==> r[i] == Str("%" + q + "%")
  {
    seq(n, i requires 0 <= i < n => Str("%" + q + "%"))
  }

  function SearchStmt(table: string, cols: seq<ColumnInfo>, q: string, limit: Value): Stmt {
    Stmt(SearchSql(table, cols), Patterns(q, |cols|) + [limit])
  }

  function Names(cols: seq<ColumnInfo>): (r: seq<string>)
    ensures |r| == |cols| && forall i :: 0 <= i < |cols| ==> r[i] == cols[i].name
  {
    seq(|cols|, i requires 0 <= i < |cols| => cols[i].name)
  }

  lemma {:induction false} ConditionsShape(cols: seq<ColumnInfo>)
    ensures SumPlaceholders(Conditions(cols)) == |cols|
    ensures SumIdentifiers(Conditions(cols)) == Names(cols)
  {
    if cols != [] {
      assert Conditions(cols)[1..] == Conditions(cols[1..]);
      assert Names(cols) == [cols[0].name] + Names(cols[1..]);
      PiecesCons(Id(cols[0].name), [Text(" LIKE "), Param]);
      PiecesCons(Text(" LIKE "), [Param]);
      PiecesCons(Param, []);
      ConditionsShape(cols[1..]);
    }
  }

  lemma SearchParts(table: string, cols: seq<ColumnInfo>)
    ensures Placeholders([Text("SELECT * FROM "), Id(table), Text(" WHERE ")]) == 0
    ensures Identifiers([Text("SELECT * FROM "), Id(table), Text(" WHERE ")]) == [table]
    ensures Placeholders([Text(" LIMIT "), Param]) == 1 && Identifiers([Text(" LIMIT "), Param]) == []
    ensures Placeholders(JoinSql(Conditions(cols), OrSep)) == |cols|
    ensures Identifiers(JoinSql(Conditions(cols), OrSep)) == Names(cols)
  {
    PiecesCons(Text("SELECT * FROM "), [Id(table), Text(" WHERE ")]);
    PiecesCons(Id(table), [Text(" WHERE ")]);
    PiecesCons(Text(" WHERE "), []);
    PiecesCons(Text(" LIMIT "), [Param]);
    PiecesCons(Param, []);
    PiecesCons(Text(" OR "), []);
    ConditionsShape(cols);
    JoinPlaceholders(Conditions(cols), OrSep);
    JoinIdentifiers(Conditions(cols), OrSep);
  }

  /** One `col LIKE ?` per searchable column and a final `LIMIT ?`: the placeholders match the
      patterns followed by the limit, and the statement names the table and then the columns. */
  lemma SearchStatement(table: string, cols: seq<ColumnInfo>, q: string, limit: Value)
    ensures Balanced(SearchStmt(table, cols, q, limit))
    ensures Identifiers(SearchSql(table, cols)) == [table] + Names(cols)
    ensures SearchStmt(table, cols, q, limit).params[|cols|] == limit
  {
    var head: Sql := [Text("SELECT * FROM "), Id(table), Text(" WHERE ")];
    var body := JoinSql(Conditions(cols), OrSep);
    var tail: Sql := [Text(" LIMIT "), Param];
    SearchParts(table, cols);
    PlaceholdersAppend(head, body);
    PlaceholdersAppend(head + body, tail);
    IdentifiersAppend(head, body);
    IdentifiersAppend(head + body, tail);
    assert SearchSql(table, cols) == head + body + tail;
  }

  predicate MissingQuery(q: Option<string>) {
    q.None? || q.value == ""
  }

  /** A single-table result: the row under its table name and id. */
  function ResultValue(table: string, row: Value): Value {
    Obj([("tableName", Str(table)), ("id", Prop(row, "id")), ("data", row)])
  }

  function ResultValues(table: string, rows: seq<Value>): (r: seq<Value>)
    ensures |r| == |rows| && forall i :: 0 <= i < |rows| ==> r[i] == ResultValue(table, rows[i])
  {
    seq(|rows|, i requires 0 <= i < |rows| => ResultValue(table, rows[i]))
  }

  /** `GET /search/:tableName`: 400 without a query; no statement at all when the table has no
      text column; otherwise one LIKE statement bound to `parseInt(limit)`, 50 by default. */
  method SearchTable(d: Database, table: string, query: Option<string>, limit: Option<string>,
                     db: Stmt -> Reply, cat: Catalog, fault: Option<DbError>) returns (resp: Response)
    modifies d
    ensures MissingQuery(query) ==> d.log == old(d.log) && resp == Fail(400, "Search query is required")
    ensures !MissingQuery(query) && Searchable(TableColumns(cat, fault, table)) == []
        ==> d.log == old(d.log) + [Execute(ColumnsStmt(table))] && resp == Response(200, Obj([("results", Arr([]))]))
    ensures !MissingQuery(query) && Searchable(TableColumns(cat, fault, table)) != []
        ==> var st := SearchStmt(table, Searchable(TableColumns(cat, fault, table)), query.value, QueryInt(limit, 50));
            d.log == old(d.log) + [Execute(ColumnsStmt(table)), Execute(st)]
            && resp == (if db(st).Failed? then Response(500, ErrorBody(Str(db(st).err.message)))
                        else Response(200, Obj([("results", Arr(ResultValues(table, RowsOf(db(st)))))])))
  {
    if MissingQuery(query) {
      return Fail(400, "Search query is required");
    }
    var columns := d.GetTableColumns(table, cat, fault);
    var searchable := Searchable(columns);
    if searchable == [] {
      return Response(200, Obj([("results", Arr([]))]));
    }
    var results := d.Query(SearchStmt(table, searchable, query.value, QueryInt(limit, 50)), db);
    if results.Failed? {
      return Response(500, ErrorBody(Str(results.err.message)));
    }
    resp := Response(200, Obj([("results", Arr(ResultValues(table, RowsOf(results))))]));
  }

  // ---------------------------------------------------------------------
  // calculateRelevanceScore
  // ---------------------------------------------------------------------

  function Max(a: real, b: real): real {
    if a >= b then a else b
  }

  /** The tightness bonus `max(1, 10 - (|v| - |q|) / 10)`, in exact rational arithmetic. */
  function Bonus(vl: string, ql: string): real {
    Max(1.0, 10.0 - ((|vl| - |ql|) as real) / 10.0)
  }

  function BaseScore(vl: string, ql: string): real {
    if vl == ql then 100.0
    else if StartsWith(vl, ql) then 50.0
    else if Contains(vl, ql) then 25.0
    else 0.0
  }

  /** One column's contribution to a row's score; a falsy cell contributes nothing. */
  function ColumnScore(row: Value, col: ColumnInfo, q: string): real {
    var v := Prop(row, col.name);
    if !Truthy(v) then 0.0
    else
      var vl := ToLower(ToStr(v));
      var ql := ToLower(q);
      BaseScore(vl, ql) + (if Contains(vl, ql) then Bonus(vl, ql) else 0.0)
  }

  /** The score of a row: its columns' contributions summed in column order. */
  function Score(row: Value, q: string, cols: seq<ColumnInfo>): real {
    if cols == [] then 0.0 else Score(row, q, cols[..|cols| - 1]) + ColumnScore(row, cols[|cols| - 1], q)
  }

  /** The bonus is earned only by a containing value, and then lies in [1, 10]; it reaches 10
      only for a value as long as the query. */
  lemma BonusRange(vl: string, ql: string)
    requires Contains(vl, ql)
    ensures 1.0 <= Bonus(vl, ql) <= 10.0
    ensures Bonus(vl, ql) == 10.0 <==> |vl| == |ql|
  {
    ContainsNoLonger(vl, ql);
  }

  /** The contribution bands: an exact match scores 110, a longer prefix match [51, 60), any
      other containing value [26, 35), and everything else, falsy cells included, 0. */
  lemma ColumnBands(row: Value, col: ColumnInfo, q: string)
    ensures var v := Prop(row, col.name);
      var vl := ToLower(ToStr(v));
      var ql := ToLower(q);
      var s := ColumnScore(row, col, q);
      (!Truthy(v) ==> s == 0.0)
      && (Truthy(v) && vl == ql ==> s == 110.0)
      && (Truthy(v) && vl != ql && StartsWith(vl, ql) ==> 51.0 <= s < 60.0)
      && (Truthy(v) && !StartsWith(vl, ql) && Contains(vl, ql) ==> 26.0 <= s < 35.0)
      && (Truthy(v) && !Contains(vl, ql) ==> s == 0.0)
  {
    var v := Prop(row, col.name);
    var vl := ToLower(ToStr(v));
    var ql := ToLower(q);
    if Truthy(v) && Contains(vl, ql) {
      BonusRange(vl, ql);
      if |vl| == |ql| {
        ContainsSameLength(vl, ql);
      }
    }
  }

  lemma {:induction false} ScoreNonNegative(row: Value, q: string, cols: seq<ColumnInfo>)
    ensures 0.0 <= Score(row, q, cols) <= 110.0 * (|cols| as real)
  {
    if cols != [] {
      ScoreNonNegative(row, q, cols[..|cols| - 1]);
      ColumnBands(row, cols[|cols| - 1], q);
    }
  }

  /** `calculateRelevanceScore(row, query, searchableColumns)` */
  method RelevanceScore(row: Value, q: string, cols: seq<ColumnInfo>) returns (score: real)
    ensures score == Score(row, q, cols)
  {
    score := 0.0;
    var ql := ToLower(q);
    var i := 0;
    while i < |cols|
      invariant 0 <= i <= |cols|
      invariant score == Score(row, q, cols[..i])
    {
      assert cols[..i + 1][..i] == cols[..i];
      var value := Prop(row, cols[i].name);
      if Truthy(value) {
        var vl := ToLower(ToStr(value));
        if vl == ql {
          score := score + 100.0;
        } else if StartsWith(vl, ql) {
          score := score + 50.0;
        } else if Contains(vl, ql) {
          score := score + 25.0;
        }
        if Contains(vl, ql) {
          score := score + Max(1.0, 10.0 - ((|vl| - |ql|) as real) / 10.0);
        }
      }
      i := i + 1;
    }
    assert cols[..i] == cols;
  }

  // ---------------------------------------------------------------------
  // Global search
  // ---------------------------------------------------------------------

  /** A global result before its score is stripped. */
  datatype Hit = Hit(tableName: string, id: Value, data: Value, score: real)

  /** `({ score, ...result }) => result` */
  function HitValue(h: Hit): (r: Value)
    ensures r.Obj? && Keys(r.fields) == ["tableName", "id", "data"]
  {
    Obj([("tableName", Str(h.tableName)), ("id", h.id), ("data", h.data)])
  }

  function HitValues(hs: seq<Hit>): (r: seq<Value>)
    ensures |r| == |hs| && forall i :: 0 <= i < |hs| ==> r[i] == HitValue(hs[i])
  {
    seq(|hs|, i requires 0 <= i < |hs| => HitValue(hs[i]))
  }

  function RowHits(table: string, rows: seq<Value>, q: string, cols: seq<ColumnInfo>): (r: seq<Hit>)
    ensures |r| == |rows|
    ensures forall i :: 0 <= i < |rows| ==> r[i] == Hit(table, Prop(rows[i], "id"), rows[i], Score(rows[i], q, cols))
  {
    seq(|rows|, i requires 0 <= i < |rows| => Hit(table, Prop(rows[i], "id"), rows[i], Score(rows[i], q, cols)))
  }

  /** The statement a table is searched with, bound to a fixed limit of 20. */
  function TableSearch(t: TableRow, q: string, cat: Catalog, fault: Option<DbError>): Stmt {
    SearchStmt(t.name, Searchable(TableColumns(cat, fault, t.name)), q, Num(20))
  }

  function TableEvents(t: TableRow, q: string, cat: Catalog, fault: Option<DbError>): seq<Event> {
    [Execute(ColumnsStmt(t.name))]
    + (if Searchable(TableColumns(cat, fault, t.name)) == [] then [] else [Execute(TableSearch(t, q, cat, fault))])
  }

  /** A table's scored rows; none when it has no text column or its statement fails. */
  function TableHits(t: TableRow, q: string, db: Stmt -> Reply, cat: Catalog, fault: Option<DbError>): seq<Hit> {
    var cols := Searchable(TableColumns(cat, fault, t.name));
    if cols == [] || db(TableSearch(t, q, cat, fault)).Failed? then []
    else RowHits(t.name, RowsOf(db(TableSearch(t, q, cat, fault))), q, cols)
  }

  function AllEvents(ts: seq<TableRow>, q: string, cat: Catalog, fault: Option<DbError>): seq<Event> {
    if ts == [] then [] else AllEvents(ts[..|ts| - 1], q, cat, fault) + TableEvents(ts[|ts| - 1], q, cat, fault)
  }

  function AllHits(ts: seq<TableRow>, q: string, db: Stmt -> Reply, cat: Catalog, fault: Option<DbError>): seq<Hit> {
    if ts == [] then [] else AllHits(ts[..|ts| - 1], q, db, cat, fault) + TableHits(ts[|ts| - 1], q, db, cat, fault)
  }

  /** Every hit comes from a listed table whose statement succeeded, and a table contributes no
      more rows than its statement returned, at most 20 when the database honours its LIMIT. */
  lemma {:induction false} HitsFromSucceededTables(ts: seq<TableRow>, q: string, db: Stmt -> Reply,
                                                   cat: Catalog, fault: Option<DbError>, h: Hit)
    requires h in AllHits(ts, q, db, cat, fault)
    ensures exists t :: t in ts && t.name == h.tableName && !db(TableSearch(t, q, cat, fault)).Failed?
                        && h.data in RowsOf(db(TableSearch(t, q, cat, fault)))
  {
    var init := ts[..|ts| - 1];
    var t := ts[|ts| - 1];
    if h in AllHits(init, q, db, cat, fault) {
      HitsFromSucceededTables(init, q, db, cat, fault, h);
      var u :| u in init && u.name == h.tableName && !db(TableSearch(u, q, cat, fault)).Failed?
               && h.data in RowsOf(db(TableSearch(u, q, cat, fault)));
      assert u in ts;
    } else {
      assert h in TableHits(t, q, db, cat, fault);
      var rows := RowsOf(db(TableSearch(t, q, cat, fault)));
      var i :| 0 <= i < |rows| && h == RowHits(t.name, rows, q, Searchable(TableColumns(cat, fault, t.name)))[i];
      assert h.data == rows[i];
    }
  }

  lemma TableContribution(t: TableRow, q: string, db: Stmt -> Reply, cat: Catalog, fault: Option<DbError>)
    requires |RowsOf(db(TableSearch(t, q, cat, fault)))| <= 20
    ensures |TableHits(t, q, db, cat, fault)| <= 20
    ensures TableSearch(t, q, cat, fault).params[|Searchable(TableColumns(cat, fault, t.name))|] == Num(20)
  {
    SearchStatement(t.name, Searchable(TableColumns(cat, fault, t.name)), q, Num(20));
  }

  function ScoreGe(): (Hit, Hit) -> bool {
    (a: Hit, b: Hit) => a.score >= b.score
  }

  /** `allResults.sort((a, b) => b.score - a.score)` */
  function Ranked(hs: seq<Hit>): (r: seq<Hit>)
    ensures multiset(r) == multiset(hs) && |r| == |hs|
    ensures forall i, j :: 0 <= i < j < |r| ==> r[i].score >= r[j].score
  {
    assert Total(ScoreGe()) && Transitive(ScoreGe());
    SortCorrect(ScoreGe(), hs);
    assert |multiset(Sort(ScoreGe(), hs))| == |multiset(hs)|;
    Sort(ScoreGe(), hs)
  }

  /** The end index `array.slice(0, end)` stops at, for `end` a result of `parseInt`. */
  function SliceEnd(end: Value, len: nat): (r: nat)
    ensures r <= len
    ensures end.Num? && end.n >= 0 ==> r == if end.n < len then end.n else len
    ensures end.Num? && end.n < 0 ==> r == if len + end.n < 0 then 0 else len + end.n
    ensures !end.Num? ==> r == 0
  {
    if end.Num? then
      if end.n < 0 then (if len + end.n < 0 then 0 else len + end.n)
      else if end.n < len then end.n else len
    else 0
  }

  function GlobalResponse(all: seq<Hit>, limit: Option<string>): Response {
    var ranked := Ranked(all);
    Response(200, Obj([("results", Arr(HitValues(ranked[..SliceEnd(QueryInt(limit, 100), |ranked|)]))),
                       ("totalFound", Num(|all|))]))
  }

  /** The answered results are the best-scored hits in non-increasing score order, at most
      `limit` of them (100 by default), while `totalFound` counts every hit. */
  lemma GlobalRanking(all: seq<Hit>, limit: Option<string>)
    ensures var ranked := Ranked(all);
      var n := SliceEnd(QueryInt(limit, 100), |all|);
      GlobalResponse(all, limit).body.fields[0].1 == Arr(HitValues(ranked[..n]))
      && GlobalResponse(all, limit).body.fields[1].1 == Num(|all|)
      && (limit.None? ==> n == if |all| < 100 then |all| else 100)
      && (forall i, j :: 0 <= i < j < n ==> ranked[i].score >= ranked[j].score)
      && (forall i, h :: 0 <= i < n && h in all && h !in ranked[..n] ==> ranked[i].score >= h.score)
  {
    var ranked := Ranked(all);
    var n := SliceEnd(QueryInt(limit, 100), |all|);
    forall i, h | 0 <= i < n && h in all && h !in ranked[..n]
      ensures ranked[i].score >= h.score
    {
      assert h in multiset(ranked);
      var j :| 0 <= j < |ranked| && ranked[j] == h;
    }
  }

  /** The scored rows of one successful statement. */
  method ScoreRows(table: string, rows: seq<Value>, q: string, cols: seq<ColumnInfo>) returns (hits: seq<Hit>)
    ensures hits == RowHits(table, rows, q, cols)
  {
    hits := [];
    var i := 0;
    while i < |rows|
      invariant 0 <= i <= |rows|
      invariant hits == RowHits(table, rows[..i], q, cols)
    {
      var score := RelevanceScore(rows[i], q, cols);
      hits := hits + [Hit(table, Prop(rows[i], "id"), rows[i], score)];
      i := i + 1;
    }
    assert rows[..i] == rows;
  }

  /** One table of the listing: its columns, then its statement when it has text columns. */
  method SearchOne(d: Database, t: TableRow, q: string, db: Stmt -> Reply, cat: Catalog, fault: Option<DbError>)
    returns (hits: seq<Hit>)
    modifies d
    ensures d.log == old(d.log) + TableEvents(t, q, cat, fault)
    ensures hits == TableHits(t, q, db, cat, fault)
  {
    hits := [];
    var columns := d.GetTableColumns(t.name, cat, fault);
    var searchable := Searchable(columns);
    if searchable != [] {
      var results := d.Query(SearchStmt(t.name, searchable, q, Num(20)), db);
      if !results.Failed? {
        hits := ScoreRows(t.name, RowsOf(results), q, searchable);
      }
    }
  }

  /** One more table of the listing adds its events and its hits at the end. */
  lemma AllStep(ts: seq<TableRow>, i: nat, q: string, db: Stmt -> Reply, cat: Catalog, fault: Option<DbError>)
    requires i < |ts|
    ensures AllEvents(ts[..i + 1], q, cat, fault) == AllEvents(ts[..i], q, cat, fault) + TableEvents(ts[i], q, cat, fault)
    ensures AllHits(ts[..i + 1], q, db, cat, fault) == AllHits(ts[..i], q, db, cat, fault) + TableHits(ts[i], q, db, cat, fault)
  {
    var prefix := ts[..i + 1];
    assert prefix[..|prefix| - 1] == ts[..i] && prefix[|prefix| - 1] == ts[i];
  }

  /** The loop's step: the next table's events and hits extend those of the tables before it. */
  method SearchNext(d: Database, ts: seq<TableRow>, i: nat, q: string, db: Stmt -> Reply, cat: Catalog,
                    fault: Option<DbError>, ghost base: seq<Event>, acc: seq<Hit>) returns (all: seq<Hit>)
    requires i < |ts|
    requires d.log == base + AllEvents(ts[..i], q, cat, fault)
    requires acc == AllHits(ts[..i], q, db, cat, fault)
    modifies d
    ensures d.log == base + AllEvents(ts[..i + 1], q, cat, fault)
    ensures all == AllHits(ts[..i + 1], q, db, cat, fault)
  {
    AllStep(ts, i, q, db, cat, fault);
    LogAppend(base, AllEvents(ts[..i], q, cat, fault), TableEvents(ts[i], q, cat, fault));
    var tableResults := SearchOne(d, ts[i], q, db, cat, fault);
    all := acc + tableResults;
  }

  /** The loop over the listing: each table's columns, then its statement when it has text
      columns; a failing statement only skips that table. */
  method SearchAll(d: Database, ts: seq<TableRow>, q: string, db: Stmt -> Reply, cat: Catalog, fault: Option<DbError>)
    returns (all: seq<Hit>)
    modifies d
    ensures d.log == old(d.log) + AllEvents(ts, q, cat, fault)
    ensures all == AllHits(ts, q, db, cat, fault)
  {
    all := [];
    var i := 0;
    while i < |ts|
      invariant 0 <= i <= |ts|
      invariant d.log == old(d.log) + AllEvents(ts[..i], q, cat, fault)
      invariant all == AllHits(ts[..i], q, db, cat, fault)
    {
      all := SearchNext(d, ts, i, q, db, cat, fault, old(d.log), all);
      i := i + 1;
    }
    assert ts[..i] == ts;
  }

  /** `GET /search`: 400 without a query; otherwise the listing, every table searched, the hits
      ranked and truncated. */
  method GlobalSearch(d: Database, query: Option<string>, limit: Option<string>, db: Stmt -> Reply,
                      cat: Catalog, fault: Option<DbError>, now: Value) returns (resp: Response)
    modifies d
    ensures MissingQuery(query) ==> d.log == old(d.log) && resp == Fail(400, "Search query is required")
    ensures !MissingQuery(query)
        ==> var ts := Tables(cat, fault, now);
            d.log == old(d.log) + [Execute(TablesStmt)] + AllEvents(ts, query.value, cat, fault)
            && resp == GlobalResponse(AllHits(ts, query.value, db, cat, fault), limit)
  {
    if MissingQuery(query) {
      return Fail(400, "Search query is required");
    }
    var tables := d.GetTables(cat, fault, now);
    var allResults := SearchAll(d, tables, query.value, db, cat, fault);
    var ranked := Ranked(allResults);
    var limited := ranked[..SliceEnd(QueryInt(limit, 100), |ranked|)];
    resp := Response(200, Obj([("results", Arr(HitValues(limited))), ("totalFound", Num(|allResults|))]));
  }
}
