/** The `/api/data` routes: list, insert, update and delete rows of a user
    table, one at a time or in bulk. */
module Data {
  import opened Js
  import opened Sql
  import opened Http
  import opened Db

  type Fields = seq<(string, Value)>

  /** `Object.entries(v)` for a request body: an object's own fields, an array's elements
      under their indices. */
  function Entries(v: Value): Fields {
    match v
    case Obj(fields) => fields
    case Arr(items) => seq(|items|, i requires 0 <= i < |items| => (NumberToString(i), items[i]))
    case _ => []
  }

  function Failure(e: DbError): Response {
    Response(500, ErrorBody(Str(e.message)))
  }

  /** `rows[0]`, `undefined` when there is none. */
  function FirstRow(r: Reply): Value {
    if |RowsOf(r)| > 0 then RowsOf(r)[0] else Undefined
  }

  // ---------------------------------------------------------------------
  // GET /:tableName
  // ---------------------------------------------------------------------

  /** The query-string fields the listing reads; absent ones are `None`. */
  datatype ListQuery = ListQuery(limit: Option<string>, offset: Option<string>, sortBy: Option<string>, sortOrder: Option<string>)

  /** The ORDER BY part, present only when `sortBy` is non-empty. */
  function ListOrder(q: ListQuery): Sql {
    if q.sortBy.Some? && q.sortBy.value != ""
    then [Text(" ORDER BY "), Id(q.sortBy.value), Text(" " + ToUpper(if q.sortOrder.Some? then q.sortOrder.value else "ASC"))]
    else []
  }

  const ListTail: Sql := [Text(" LIMIT "), Param, Text(" OFFSET "), Param]

  function ListSql(table: string, q: ListQuery): Sql {
    [Text("SELECT * FROM "), Id(table)] + ListOrder(q) + ListTail
  }

  function ListStmt(table: string, q: ListQuery): Stmt {
    Stmt(ListSql(table, q), [QueryInt(q.limit, 1000), QueryInt(q.offset, 0)])
  }

  lemma ListParts(table: string, q: ListQuery)
    ensures Placeholders([Text("SELECT * FROM "), Id(table)]) == 0
    ensures Identifiers([Text("SELECT * FROM "), Id(table)]) == [table]
    ensures Placeholders(ListOrder(q)) == 0
    ensures Identifiers(ListOrder(q)) == if q.sortBy.Some? && q.sortBy.value != "" then [q.sortBy.value] else []
    ensures Placeholders(ListTail) == 2 && Identifiers(ListTail) == []
  {
    PiecesCons(Text("SELECT * FROM "), [Id(table)]);
    PiecesCons(Id(table), []);
    var order := ListOrder(q);
    if order != [] {
      PiecesCons(order[0], order[1..]);
      PiecesCons(order[1], order[2..]);
      PiecesCons(order[2], []);
    }
    PiecesCons(ListTail[0], ListTail[1..]);
    PiecesCons(ListTail[1], ListTail[2..]);
    PiecesCons(ListTail[2], ListTail[3..]);
    PiecesCons(ListTail[3], []);
  }

  /** The listing always binds exactly `limit` and `offset`; it orders only when `sortBy` is
      non-empty, by that column, in the upper-cased (unchecked) direction. */
  lemma ListStatement(table: string, q: ListQuery)
    ensures Balanced(ListStmt(table, q))
    ensures Identifiers(ListSql(table, q))
         == [table] + (if q.sortBy.Some? && q.sortBy.value != "" then [q.sortBy.value] else [])
    ensures q.sortBy.Some? && q.sortBy.value != "" && q.sortOrder.Some?
        ==> Text(" " + ToUpper(q.sortOrder.value)) in ListSql(table, q)
  {
    ListParts(table, q);
    Append3([Text("SELECT * FROM "), Id(table)], ListOrder(q), ListTail);
    ListDirection(table, q);
  }

  lemma ListDirection(table: string, q: ListQuery)
    ensures q.sortBy.Some? && q.sortBy.value != "" && q.sortOrder.Some?
        ==> Text(" " + ToUpper(q.sortOrder.value)) in ListSql(table, q)
  {
    if q.sortBy.Some? && q.sortBy.value != "" && q.sortOrder.Some? {
      assert ListSql(table, q)[4] == ListOrder(q)[2];
    }
  }

  /** `GET /:tableName`: the rows, then the column descriptors. */
  method List(d: Database, table: string, q: ListQuery, db: Stmt -> Reply, cat: Catalog, fault: Option<DbError>)
    returns (resp: Response)
    modifies d
    ensures db(ListStmt(table, q)).Failed?
        ==> d.log == old(d.log) + [Execute(ListStmt(table, q))] && resp == Failure(db(ListStmt(table, q)).err)
    ensures !db(ListStmt(table, q)).Failed?
        ==> d.log == old(d.log) + [Execute(ListStmt(table, q)), Execute(ColumnsStmt(table))]
            && resp == Response(200, Obj([("rows", Arr(RowsOf(db(ListStmt(table, q))))),
                                          ("columns", ColumnsValue(TableColumns(cat, fault, table)))]))
  {
    var data := d.Query(ListStmt(table, q), db);
    if data.Failed? {
      return Failure(data.err);
    }
    var columns := d.GetTableColumns(table, cat, fault);
    resp := Response(200, Obj([("rows", Arr(RowsOf(data))), ("columns", ColumnsValue(columns))]));
  }

  // ---------------------------------------------------------------------
  // POST /:tableName
  // ---------------------------------------------------------------------

  /** The insert filter keeps a field unless it is `id` or its value is `undefined`, `null` or `''`. */
  predicate Kept(p: (string, Value)) {
    p.0 != "id" && !p.1.Undefined? && !p.1.Null? && p.1 != Str("")
  }

  function CleanFields(fields: Fields): (r: Fields)
    ensures forall p :: p in r <==> p in fields && Kept(p)
    ensures |r| <= |fields|
  {
    if fields == [] then []
    else (if Kept(fields[0]) then [fields[0]] else []) + CleanFields(fields[1..])
  }

  /** Cleaning commutes with concatenation, so the kept fields stay in their original order. */
  lemma {:induction false} CleanFieldsAppend(a: Fields, b: Fields)
    ensures CleanFields(a + b) == CleanFields(a) + CleanFields(b)
  {
    if a == [] {
      assert a + b == b;
    } else {
      assert (a + b)[1..] == a[1..] + b;
      CleanFieldsAppend(a[1..], b);
    }
  }

  /** Falsy values other than the three dropped ones survive: `0` and `false` are inserted. */
  lemma CleanKeepsZeroAndFalse(k: string)
    requires k != "id"
    ensures CleanFields([(k, Num(0)), (k, Bool(false))]) == [(k, Num(0)), (k, Bool(false))]
  {
    assert [(k, Num(0)), (k, Bool(false))][1..] == [(k, Bool(false))];
  }

  function InsertSql(table: string, columns: seq<string>): Sql {
    [Text("INSERT INTO "), Id(table), Text(" (")] + JoinSql(IdList(columns), Comma)
    + [Text(") VALUES (")] + JoinSql(ParamList(|columns|), Comma) + [Text(")")]
  }

  function InsertStmt(table: string, body: Value): Stmt {
    var clean := CleanFields(Entries(body));
    Stmt(InsertSql(table, Keys(clean)), Values(clean))
  }

  lemma InsertParts(table: string, columns: seq<string>)
    ensures Placeholders([Text("INSERT INTO "), Id(table), Text(" (")]) == 0
    ensures Identifiers([Text("INSERT INTO "), Id(table), Text(" (")]) == [table]
    ensures Placeholders([Text(") VALUES (")]) == 0 && Identifiers([Text(") VALUES (")]) == []
    ensures Placeholders([Text(")")]) == 0 && Identifiers([Text(")")]) == []
    ensures Placeholders(JoinSql(IdList(columns), Comma)) == 0
    ensures Identifiers(JoinSql(IdList(columns), Comma)) == columns
    ensures Placeholders(JoinSql(ParamList(|columns|), Comma)) == |columns|
    ensures Identifiers(JoinSql(ParamList(|columns|), Comma)) == []
  {
    PiecesCons(Text("INSERT INTO "), [Id(table), Text(" (")]);
    PiecesCons(Id(table), [Text(" (")]);
    PiecesCons(Text(" ("), []);
    PiecesCons(Text(") VALUES ("), []);
    PiecesCons(Text(")"), []);
    IdListNoPlaceholders(columns);
    IdListNames(columns);
    ParamListPlaceholderCount(|columns|);
    ParamListNoIdentifiers(|columns|);
  }

  /** The INSERT names the table and then exactly the kept columns, in order, and has one
      placeholder per kept value. */
  lemma InsertStatement(table: string, body: Value)
    ensures Balanced(InsertStmt(table, body))
    ensures Identifiers(InsertStmt(table, body).sql) == [table] + Keys(CleanFields(Entries(body)))
  {
    var cols := Keys(CleanFields(Entries(body)));
    var head: Sql := [Text("INSERT INTO "), Id(table), Text(" (")];
    var names := JoinSql(IdList(cols), Comma);
    var mid: Sql := [Text(") VALUES (")];
    var marks := JoinSql(ParamList(|cols|), Comma);
    var close: Sql := [Text(")")];
    InsertParts(table, cols);
    PlaceholdersAppend(head, names);
    PlaceholdersAppend(head + names, mid);
    PlaceholdersAppend(head + names + mid, marks);
    PlaceholdersAppend(head + names + mid + marks, close);
    IdentifiersAppend(head, names);
    IdentifiersAppend(head + names, mid);
    IdentifiersAppend(head + names + mid, marks);
    IdentifiersAppend(head + names + mid + marks, close);
    assert InsertStmt(table, body).sql == head + names + mid + marks + close;
  }

  lemma ParamListNoIdentifiers(n: nat)
    ensures Identifiers(JoinSql(ParamList(n), Comma)) == []
  {
    PiecesCons(Text(", "), []);
    JoinIdentifiers(ParamList(n), Comma);
    ParamListIdentifiers(n);
  }

  lemma {:induction false} ParamListIdentifiers(n: nat)
    ensures SumIdentifiers(ParamList(n)) == []
  {
    if n > 0 {
      assert ParamList(n)[1..] == ParamList(n - 1);
      PiecesCons(Param, []);
      ParamListIdentifiers(n - 1);
    }
  }

  function SelectById(table: string, id: Value): Stmt {
    Stmt([Text("SELECT * FROM "), Id(table), Text(" WHERE id = "), Param], [id])
  }

  /** `result.insertId`, `undefined` for a reply that is not a write header. */
  function InsertId(r: Reply): Value {
    if r.Done? then r.insertId else Undefined
  }

  /** `POST /:tableName`: insert the cleaned fields, re-select the row by `insertId`, answer 201. */
  method Create(d: Database, table: string, body: Value, db: Stmt -> Reply) returns (resp: Response)
    modifies d
    ensures var ins := InsertStmt(table, body);
      if db(ins).Failed? then d.log == old(d.log) + [Execute(ins)] && resp == Failure(db(ins).err)
      else
        var sel := SelectById(table, InsertId(db(ins)));
        d.log == old(d.log) + [Execute(ins), Execute(sel)]
        && resp == (if db(sel).Failed? then Failure(db(sel).err) else Response(201, FirstRow(db(sel))))
  {
    var result := d.Query(InsertStmt(table, body), db);
    if result.Failed? {
      return Failure(result.err);
    }
    var newRecord := d.Query(SelectById(table, InsertId(result)), db);
    if newRecord.Failed? {
      return Failure(newRecord.err);
    }
    resp := Response(201, FirstRow(newRecord));
  }

  // ---------------------------------------------------------------------
  // PUT /:tableName/:id and PUT /:tableName/bulk
  // ---------------------------------------------------------------------

  /** `delete data.id`: the object without its `id` key, the other keys in order. */
  function WithoutId(fields: Fields): (r: Fields)
    ensures forall p :: p in r <==> p in fields && p.0 != "id"
    ensures |r| <= |fields|
  {
    if fields == [] then []
    else (if fields[0].0 != "id" then [fields[0]] else []) + WithoutId(fields[1..])
  }

  function Assignments(columns: seq<string>): (r: seq<Sql>)
    ensures |r| == |columns|
    ensures forall i :: 0 <= i < |columns| ==> r[i] == [Id(columns[i]), Text(" = "), Param]
  {
    seq(|columns|, i requires 0 <= i < |columns| => [Id(columns[i]), Text(" = "), Param])
  }

  /** `UPDATE <table> SET <col = ?, ...> WHERE id = ?`; with no columns the SET list is empty. */
  function UpdateSql(table: string, columns: seq<string>): Sql {
    [Text("UPDATE "), Id(table), Text(" SET ")] + JoinSql(Assignments(columns), Comma) + [Text(" WHERE id = "), Param]
  }

  function UpdateStmt(table: string, fields: Fields, id: Value): Stmt {
    var data := WithoutId(fields);
    Stmt(UpdateSql(table, Keys(data)), Values(data) + [id])
  }

  lemma {:induction false} AssignmentsShape(columns: seq<string>)
    ensures SumPlaceholders(Assignments(columns)) == |columns|
    ensures SumIdentifiers(Assignments(columns)) == columns
  {
    if columns != [] {
      assert Assignments(columns)[1..] == Assignments(columns[1..]);
      var a: Sql := [Id(columns[0]), Text(" = "), Param];
      PiecesCons(Id(columns[0]), [Text(" = "), Param]);
      PiecesCons(Text(" = "), [Param]);
      PiecesCons(Param, []);
      AssignmentsShape(columns[1..]);
    }
  }

  lemma UpdateParts(table: string, columns: seq<string>)
    ensures Placeholders([Text("UPDATE "), Id(table), Text(" SET ")]) == 0
    ensures Identifiers([Text("UPDATE "), Id(table), Text(" SET ")]) == [table]
    ensures Placeholders([Text(" WHERE id = "), Param]) == 1 && Identifiers([Text(" WHERE id = "), Param]) == []
    ensures Placeholders(JoinSql(Assignments(columns), Comma)) == |columns|
    ensures Identifiers(JoinSql(Assignments(columns), Comma)) == columns
  {
    PiecesCons(Text("UPDATE "), [Id(table), Text(" SET ")]);
    PiecesCons(Id(table), [Text(" SET ")]);
    PiecesCons(Text(" SET "), []);
    PiecesCons(Text(" WHERE id = "), [Param]);
    PiecesCons(Param, []);
    PiecesCons(Text(", "), []);
    AssignmentsShape(columns);
    JoinPlaceholders(Assignments(columns), Comma);
    JoinIdentifiers(Assignments(columns), Comma);
  }

  /** The UPDATE assigns exactly the non-`id` keys, in order, and binds their values followed
      by the row id, one per placeholder. */
  lemma UpdateStatement(table: string, fields: Fields, id: Value)
    ensures Balanced(UpdateStmt(table, fields, id))
    ensures Identifiers(UpdateStmt(table, fields, id).sql) == [table] + Keys(WithoutId(fields))
    ensures UpdateStmt(table, fields, id).params[|UpdateStmt(table, fields, id).params| - 1] == id
  {
    var cols := Keys(WithoutId(fields));
    var head: Sql := [Text("UPDATE "), Id(table), Text(" SET ")];
    var sets := JoinSql(Assignments(cols), Comma);
    var tail: Sql := [Text(" WHERE id = "), Param];
    UpdateParts(table, cols);
    PlaceholdersAppend(head, sets);
    PlaceholdersAppend(head + sets, tail);
    IdentifiersAppend(head, sets);
    IdentifiersAppend(head + sets, tail);
    assert UpdateStmt(table, fields, id).sql == head + sets + tail;
  }

  /** An empty payload still yields an UPDATE, with an empty SET list and only the id bound. */
  lemma EmptyUpdate(table: string, id: Value)
    ensures UpdateStmt(table, [], id)
         == Stmt([Text("UPDATE "), Id(table), Text(" SET "), Text(" WHERE id = "), Param], [id])
  {
  }

  /** `PUT /:tableName/:id`: update, then re-select the row. */
  method Update(d: Database, table: string, id: string, body: Value, db: Stmt -> Reply) returns (resp: Response)
    modifies d
    ensures var upd := UpdateStmt(table, Entries(body), Str(id));
      if db(upd).Failed? then d.log == old(d.log) + [Execute(upd)] && resp == Failure(db(upd).err)
      else
        var sel := SelectById(table, Str(id));
        d.log == old(d.log) + [Execute(upd), Execute(sel)]
        && resp == (if db(sel).Failed? then Failure(db(sel).err) else Response(200, FirstRow(db(sel))))
  {
    var r := d.Query(UpdateStmt(table, Entries(body), Str(id)), db);
    if r.Failed? {
      return Failure(r.err);
    }
    var updated := d.Query(SelectById(table, Str(id)), db);
    if updated.Failed? {
      return Failure(updated.err);
    }
    resp := Response(200, FirstRow(updated));
  }

  /** One UPDATE per record with a truthy `id`, in array order; the others are skipped. */
  function BulkWork(table: string, records: seq<Value>): (r: seq<Stmt>)
    ensures |r| <= |records|
  {
    if records == [] then []
    else
      var rec := records[0];
      (if Truthy(Prop(rec, "id")) then [UpdateStmt(table, Entries(rec), Prop(rec, "id"))] else [])
      + BulkWork(table, records[1..])
  }

  function CountWithId(records: seq<Value>): nat {
    if records == [] then 0 else (if Truthy(Prop(records[0], "id")) then 1 else 0) + CountWithId(records[1..])
  }

  /** The bulk callback runs exactly one balanced UPDATE per record with an id, each
      ending with that record's id as its last parameter. */
  lemma {:induction false} BulkWorkShape(table: string, records: seq<Value>)
    ensures |BulkWork(table, records)| == CountWithId(records)
    ensures forall st :: st in BulkWork(table, records) ==> Balanced(st)
    ensures forall st :: st in BulkWork(table, records) ==>
              exists rec :: rec in records && Truthy(Prop(rec, "id")) && st == UpdateStmt(table, Entries(rec), Prop(rec, "id"))
  {
    if records != [] {
      BulkWorkShape(table, records[1..]);
      var rec := records[0];
      UpdateStatement(table, Entries(rec), Prop(rec, "id"));
      forall st | st in BulkWork(table, records[1..])
        ensures exists r :: r in records && Truthy(Prop(r, "id")) && st == UpdateStmt(table, Entries(r), Prop(r, "id"))
      {
        var r :| r in records[1..] && Truthy(Prop(r, "id")) && st == UpdateStmt(table, Entries(r), Prop(r, "id"));
        assert r in records;
      }
    }
  }

  /** `PUT /:tableName/bulk`: 400 unless the body is an array; otherwise every update runs in
      one transaction. A `null` element, which would make the callback throw, is excluded. */
  method BulkUpdate(d: Database, table: string, body: Value, db: Stmt -> Reply, f: TxFaults) returns (resp: Response)
    requires body.Arr? ==> forall i :: 0 <= i < |body.items| ==> !body.items[i].Null? && !body.items[i].Undefined?
    modifies d
    ensures !body.Arr? ==> d.log == old(d.log) && resp == Fail(400, "Request body must be an array of records")
    ensures body.Arr?
        ==> d.log == old(d.log) + RunTransaction(BulkWork(table, body.items), db, f).events
            && resp == (if RunTransaction(BulkWork(table, body.items), db, f).outcome.Committed?
                                   then Response(200, MessageBody("Bulk update completed successfully"))
                                   else Failure(RunTransaction(BulkWork(table, body.items), db, f).outcome.err))
  {
    if !body.Arr? {
      return Fail(400, "Request body must be an array of records");
    }
    var outcome := d.Transaction(BulkWork(table, body.items), db, f);
    if outcome.Committed? {
      resp := Response(200, MessageBody("Bulk update completed successfully"));
    } else {
      resp := Failure(outcome.err);
    }
  }

  // ---------------------------------------------------------------------
  // DELETE /:tableName/:id and DELETE /:tableName/bulk
  // ---------------------------------------------------------------------

  function DeleteStmt(table: string, id: string): Stmt {
    Stmt([Text("DELETE FROM "), Id(table), Text(" WHERE id = "), Param], [Str(id)])
  }

  method Delete(d: Database, table: string, id: string, db: Stmt -> Reply) returns (resp: Response)
    modifies d
    ensures d.log == old(d.log) + [Execute(DeleteStmt(table, id))]
    ensures resp == if db(DeleteStmt(table, id)).Failed? then Failure(db(DeleteStmt(table, id)).err)
                    else Response(200, MessageBody("Record deleted successfully"))
  {
    var r := d.Query(DeleteStmt(table, id), db);
    if r.Failed? {
      return Failure(r.err);
    }
    resp := Response(200, MessageBody("Record deleted successfully"));
  }

  function BulkDeleteStmt(table: string, ids: seq<Value>): Stmt {
    Stmt([Text("DELETE FROM "), Id(table), Text(" WHERE id IN (")] + JoinSql(ParamList(|ids|), Comma) + [Text(")")], ids)
  }

  /** The `IN` list has one placeholder per id, bound to the ids in order. */
  lemma BulkDeleteBalanced(table: string, ids: seq<Value>)
    ensures Balanced(BulkDeleteStmt(table, ids)) && BulkDeleteStmt(table, ids).params == ids
  {
    var head: Sql := [Text("DELETE FROM "), Id(table), Text(" WHERE id IN (")];
    PiecesCons(Text("DELETE FROM "), [Id(table), Text(" WHERE id IN (")]);
    PiecesCons(Id(table), [Text(" WHERE id IN (")]);
    PiecesCons(Text(" WHERE id IN ("), []);
    PiecesCons(Text(")"), []);
    ParamListPlaceholderCount(|ids|);
    PlaceholdersAppend(head, JoinSql(ParamList(|ids|), Comma));
    PlaceholdersAppend(head + JoinSql(ParamList(|ids|), Comma), [Text(")")]);
  }

  /** `DELETE /:tableName/bulk`: 400 without a non-empty `ids` array, otherwise one DELETE. */
  method BulkDelete(d: Database, table: string, body: Value, db: Stmt -> Reply) returns (resp: Response)
    modifies d
    ensures var ids := Prop(body, "ids");
      if !ids.Arr? || |ids.items| == 0 then d.log == old(d.log) && resp == Fail(400, "IDs array is required")
      else d.log == old(d.log) + [Execute(BulkDeleteStmt(table, ids.items))]
           && resp == (if db(BulkDeleteStmt(table, ids.items)).Failed? then Failure(db(BulkDeleteStmt(table, ids.items)).err)
                       else Response(200, MessageBody("Records deleted successfully")))
  {
    var ids := Prop(body, "ids");
    if !ids.Arr? || |ids.items| == 0 {
      return Fail(400, "IDs array is required");
    }
    var r := d.Query(BulkDeleteStmt(table, ids.items), db);
    if r.Failed? {
      return Failure(r.err);
    }
    resp := Response(200, MessageBody("Records deleted successfully"));
  }
}
