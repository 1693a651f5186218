/** SQL text as the handlers build it: a sequence of pieces, each literal
    text, an identifier passed through `mysql.escapeId`, or a `?` placeholder.
    `escapeId` is a library function whose definition is not part of this
    model, so rendering takes it as a parameter `esc`. A statement pairs its
    text with the bound-parameter list handed to the driver; the database
    itself is an oracle that answers each statement. */
module Sql {
  import opened Js

  datatype Piece = Text(s: string) | Id(name: string) | Param

  type Sql = seq<Piece>

  datatype Stmt = Stmt(sql: Sql, params: seq<Value>)

  datatype DbError = DbError(code: string, message: string)

  /** The driver's answer to one statement: result rows, the header of a write
      (`insertId`, `affectedRows`), or a thrown error. */
  datatype Reply = Rows(rows: seq<Value>) | Done(insertId: Value, affectedRows: int) | Failed(err: DbError)

  /** The statement binds exactly one parameter per placeholder. */
  predicate Balanced(st: Stmt) {
    Placeholders(st.sql) == |st.params|
  }

  /** The rows of a reply; a write header read as an array has none. */
  function RowsOf(r: Reply): seq<Value> {
    if r.Rows? then r.rows else []
  }

  function PieceText(esc: string -> string, p: Piece): string {
    match p
    case Text(s) => s
    case Id(n) => esc(n)
    case Param => "?"
  }

  /** The SQL string the driver receives. */
  function Render(esc: string -> string, q: Sql): string {
    if q == [] then "" else PieceText(esc, q[0]) + Render(esc, q[1..])
  }

  /** The number of `?` placeholders. */
  function Placeholders(q: Sql): nat {
    if q == [] then 0 else (if q[0].Param? then 1 else 0) + Placeholders(q[1..])
  }

  /** The escaped identifiers, in order. */
  function Identifiers(q: Sql): seq<string> {
    if q == [] then [] else (if q[0].Id? then [q[0].name] else []) + Identifiers(q[1..])
  }

  /** No literal piece contains a `?` character. */
  predicate TextFree(q: Sql) {
    forall i :: 0 <= i < |q| ==> (q[i].Text? ==> '?' !in q[i].s)
  }

  /** `esc` never produces a `?` character. */
  ghost predicate EscapeFree(esc: string -> string) {
    forall n :: '?' !in esc(n)
  }

  function Count(s: string, c: char): nat {
    if s == [] then 0 else (if s[0] == c then 1 else 0) + Count(s[1..], c)
  }

  lemma {:induction false} CountAppend(a: string, b: string, c: char)
    ensures Count(a + b, c) == Count(a, c) + Count(b, c)
  {
    if a != [] {
      assert (a + b)[1..] == a[1..] + b;
      CountAppend(a[1..], b, c);
    } else {
      assert a + b == b;
    }
  }

  lemma {:induction false} CountAbsent(s: string, c: char)
    requires c !in s
    ensures Count(s, c) == 0
  {
    if s != [] {
      CountAbsent(s[1..], c);
    }
  }

  lemma {:induction false} PlaceholdersAppend(a: Sql, b: Sql)
    ensures Placeholders(a + b) == Placeholders(a) + Placeholders(b)
  {
    if a != [] {
      assert (a + b)[1..] == a[1..] + b;
      PlaceholdersAppend(a[1..], b);
    } else {
      assert a + b == b;
    }
  }

  lemma {:induction false} IdentifiersAppend(a: Sql, b: Sql)
    ensures Identifiers(a + b) == Identifiers(a) + Identifiers(b)
  {
    if a != [] {
      assert (a + b)[1..] == a[1..] + b;
      IdentifiersAppend(a[1..], b);
    } else {
      assert a + b == b;
    }
  }

  lemma {:induction false} RenderAppend(esc: string -> string, a: Sql, b: Sql)
    ensures Render(esc, a + b) == Render(esc, a) + Render(esc, b)
  {
    if a != [] {
      assert (a + b)[1..] == a[1..] + b;
      RenderAppend(esc, a[1..], b);
    } else {
      assert a + b == b;
    }
  }

  /** Placeholders and identifiers of `[p] + q`, one piece at a time. */
  lemma PiecesCons(p: Piece, q: Sql)
    ensures Placeholders([p] + q) == (if p.Param? then 1 else 0) + Placeholders(q)
    ensures Identifiers([p] + q) == (if p.Id? then [p.name] else []) + Identifiers(q)
  {
    assert ([p] + q)[1..] == q;
  }

  /** `a`, an escaped name, `b`: the shape of most statement heads. */
  lemma Framed(a: string, n: string, b: string)
    ensures Identifiers([Text(a), Id(n), Text(b)]) == [n]
    ensures Placeholders([Text(a), Id(n), Text(b)]) == 0
  {
    PiecesCons(Text(a), [Id(n), Text(b)]);
    PiecesCons(Id(n), [Text(b)]);
    PiecesCons(Text(b), []);
  }

  lemma Literal(a: string)
    ensures Identifiers([Text(a)]) == [] && Placeholders([Text(a)]) == 0
  {
    PiecesCons(Text(a), []);
  }

  lemma Append3(a: Sql, b: Sql, c: Sql)
    ensures Identifiers(a + b + c) == Identifiers(a) + Identifiers(b) + Identifiers(c)
    ensures Placeholders(a + b + c) == Placeholders(a) + Placeholders(b) + Placeholders(c)
  {
    IdentifiersAppend(a, b);
    IdentifiersAppend(a + b, c);
    PlaceholdersAppend(a, b);
    PlaceholdersAppend(a + b, c);
  }

  lemma RenderCons(esc: string -> string, p: Piece, q: Sql)
    ensures Render(esc, [p] + q) == PieceText(esc, p) + Render(esc, q)
  {
    assert ([p] + q)[1..] == q;
  }

  /** When neither the literal text nor any escaped identifier contains `?`, the `?`
      characters of the rendered string are exactly the placeholders. */
  lemma {:induction false} RenderedQuestionMarks(esc: string -> string, q: Sql)
    requires TextFree(q) && EscapeFree(esc)
    ensures Count(Render(esc, q), '?') == Placeholders(q)
  {
    if q != [] {
      CountAppend(PieceText(esc, q[0]), Render(esc, q[1..]), '?');
      assert q == [q[0]] + q[1..];
      TextFreeAppend([q[0]], q[1..]);
      RenderedQuestionMarks(esc, q[1..]);
      match q[0]
      case Text(s) => CountAbsent(s, '?');
      case Id(n) => CountAbsent(esc(n), '?');
      case Param =>
    }
  }

  // ---------------------------------------------------------------------
  // The statement as a reporting endpoint displays it: every `?` of the
  // SQL string replaced, left to right, by the next parameter in quotes.
  // ---------------------------------------------------------------------

  /** `params[k]`, or `undefined` past the end. */
  function ParamAt(params: seq<Value>, k: nat): Value {
    if k < |params| then params[k] else Undefined
  }

  function Quoted(v: Value): string {
    "'" + ToStr(v) + "'"
  }

  /** The text of `s` with its `?` characters replaced by `params[k]`, `params[k+1]`, ... */
  function Substitute(s: string, params: seq<Value>, k: nat): string {
    if s == [] then ""
    else if s[0] == '?' then Quoted(ParamAt(params, k)) + Substitute(s[1..], params, k + 1)
    else [s[0]] + Substitute(s[1..], params, k)
  }

  lemma {:induction false} SubstituteAppend(a: string, b: string, params: seq<Value>, k: nat)
    ensures Substitute(a + b, params, k) == Substitute(a, params, k) + Substitute(b, params, k + Count(a, '?'))
  {
    if a != [] {
      assert (a + b)[1..] == a[1..] + b;
      if a[0] == '?' {
        SubstituteAppend(a[1..], b, params, k + 1);
      } else {
        SubstituteAppend(a[1..], b, params, k);
      }
    } else {
      assert a + b == b;
    }
  }

  lemma {:induction false} SubstituteNone(s: string, params: seq<Value>, k: nat)
    requires '?' !in s
    ensures Substitute(s, params, k) == s
  {
    if s != [] {
      SubstituteNone(s[1..], params, k);
      assert s == [s[0]] + s[1..];
    }
  }

  /** The SQL rendered with each placeholder replaced by its quoted value, `params[k]` first. */
  function RenderBound(esc: string -> string, q: Sql, params: seq<Value>, k: nat): string {
    if q == [] then ""
    else if q[0].Param? then Quoted(ParamAt(params, k)) + RenderBound(esc, q[1..], params, k + 1)
    else PieceText(esc, q[0]) + RenderBound(esc, q[1..], params, k)
  }

  /** When no literal text or escaped identifier contains `?`, the display form of the
      statement is exactly the statement with each placeholder bound to its own parameter:
      the i-th `?` shows the i-th parameter. */
  lemma {:induction false} DisplayBindsPlaceholders(esc: string -> string, q: Sql, params: seq<Value>, k: nat)
    requires TextFree(q) && EscapeFree(esc)
    ensures Substitute(Render(esc, q), params, k) == RenderBound(esc, q, params, k)
  {
    if q != [] {
      assert q == [q[0]] + q[1..];
      TextFreeAppend([q[0]], q[1..]);
      SubstituteAppend(PieceText(esc, q[0]), Render(esc, q[1..]), params, k);
      match q[0]
      case Text(s) =>
        CountAbsent(s, '?');
        SubstituteNone(s, params, k);
        DisplayBindsPlaceholders(esc, q[1..], params, k);
      case Id(n) =>
        CountAbsent(esc(n), '?');
        SubstituteNone(esc(n), params, k);
        DisplayBindsPlaceholders(esc, q[1..], params, k);
      case Param =>
        assert Count("?", '?') == 1;
        DisplayBindsPlaceholders(esc, q[1..], params, k + 1);
    }
  }

  // ---------------------------------------------------------------------
  // Lists: `parts.join(', ')`, `names.map(escapeId)`, `xs.map(() => '?')`
  // ---------------------------------------------------------------------

  /** `parts.join(sep)` on SQL fragments. */
  function JoinSql(parts: seq<Sql>, sep: Sql): Sql {
    if parts == [] then []
    else if |parts| == 1 then parts[0]
    else parts[0] + sep + JoinSql(parts[1..], sep)
  }

  function IdList(names: seq<string>): seq<Sql> {
    seq(|names|, i requires 0 <= i < |names| => [Id(names[i])])
  }

  function ParamList(n: nat): seq<Sql> {
    seq(n, i requires 0 <= i < n => [Param])
  }

  const Comma: Sql := [Text(", ")]

  function SumPlaceholders(parts: seq<Sql>): nat {
    if parts == [] then 0 else Placeholders(parts[0]) + SumPlaceholders(parts[1..])
  }

  /** Joining adds the separator's placeholders once between each pair of parts. */
  lemma {:induction false} JoinPlaceholders(parts: seq<Sql>, sep: Sql)
    ensures Placeholders(JoinSql(parts, sep))
         == SumPlaceholders(parts) + (if |parts| > 0 then (|parts| - 1) * Placeholders(sep) else 0)
  {
    if |parts| > 1 {
      JoinPlaceholders(parts[1..], sep);
      PlaceholdersAppend(parts[0] + sep, JoinSql(parts[1..], sep));
      PlaceholdersAppend(parts[0], sep);
    } else if |parts| == 1 {
      assert SumPlaceholders(parts[1..]) == 0;
    }
  }

  lemma {:induction false} IdListPlaceholders(names: seq<string>)
    ensures SumPlaceholders(IdList(names)) == 0
  {
    if names != [] {
      assert IdList(names)[1..] == IdList(names[1..]);
      IdListPlaceholders(names[1..]);
      assert Placeholders([Id(names[0])]) == 0;
    }
  }

  lemma {:induction false} ParamListPlaceholders(n: nat)
    ensures SumPlaceholders(ParamList(n)) == n
  {
    if n > 0 {
      assert ParamList(n)[1..] == ParamList(n - 1);
      ParamListPlaceholders(n - 1);
    }
  }

  /** `names.map(escapeId).join(', ')` has no placeholder. */
  lemma IdListNoPlaceholders(names: seq<string>)
    ensures Placeholders(JoinSql(IdList(names), Comma)) == 0
  {
    JoinPlaceholders(IdList(names), Comma);
    IdListPlaceholders(names);
  }

  /** `xs.map(() => '?').join(', ')` has exactly `|xs|` placeholders. */
  lemma ParamListPlaceholderCount(n: nat)
    ensures Placeholders(JoinSql(ParamList(n), Comma)) == n
  {
    JoinPlaceholders(ParamList(n), Comma);
    ParamListPlaceholders(n);
  }

  function SumIdentifiers(parts: seq<Sql>): seq<string> {
    if parts == [] then [] else Identifiers(parts[0]) + SumIdentifiers(parts[1..])
  }

  /** Joining with a separator that names no identifier keeps the parts' identifiers in order. */
  lemma {:induction false} JoinIdentifiers(parts: seq<Sql>, sep: Sql)
    requires Identifiers(sep) == []
    ensures Identifiers(JoinSql(parts, sep)) == SumIdentifiers(parts)
  {
    if |parts| > 1 {
      JoinIdentifiers(parts[1..], sep);
      IdentifiersAppend(parts[0] + sep, JoinSql(parts[1..], sep));
      IdentifiersAppend(parts[0], sep);
    } else if |parts| == 1 {
      assert SumIdentifiers(parts[1..]) == [];
      assert Identifiers(parts[0]) + [] == Identifiers(parts[0]);
    }
  }

  /** Parts that each name one identifier and bind nothing name those identifiers, in order. */
  lemma {:induction false} SingleNames(parts: seq<Sql>, names: seq<string>)
    requires |parts| == |names|
    requires forall i :: 0 <= i < |parts| ==> Identifiers(parts[i]) == [names[i]] && Placeholders(parts[i]) == 0
    ensures SumIdentifiers(parts) == names && SumPlaceholders(parts) == 0
  {
    if parts != [] {
      SingleNames(parts[1..], names[1..]);
      assert names == [names[0]] + names[1..];
    }
  }

  lemma {:induction false} IdListIdentifiers(names: seq<string>)
    ensures SumIdentifiers(IdList(names)) == names
  {
    if names != [] {
      assert IdList(names)[1..] == IdList(names[1..]);
      IdListIdentifiers(names[1..]);
      assert Identifiers([Id(names[0])]) == [names[0]];
    }
  }

  /** `names.map(escapeId).join(', ')` names exactly `names`, in order. */
  lemma IdListNames(names: seq<string>)
    ensures Identifiers(JoinSql(IdList(names), Comma)) == names
  {
    JoinIdentifiers(IdList(names), Comma);
    IdListIdentifiers(names);
  }

  lemma {:induction false} JoinTextFree(parts: seq<Sql>, sep: Sql)
    requires TextFree(sep)
    requires forall i :: 0 <= i < |parts| ==> TextFree(parts[i])
    ensures TextFree(JoinSql(parts, sep))
  {
    if |parts| > 1 {
      JoinTextFree(parts[1..], sep);
      TextFreeAppend(parts[0], sep);
      TextFreeAppend(parts[0] + sep, JoinSql(parts[1..], sep));
    }
  }

  lemma TextFreeAppend(a: Sql, b: Sql)
    ensures TextFree(a + b) <==> TextFree(a) && TextFree(b)
  {
    if TextFree(a) && TextFree(b) {
      forall i | 0 <= i < |a + b| ensures (a + b)[i].Text? ==> '?' !in (a + b)[i].s {
        if i < |a| { assert (a + b)[i] == a[i]; } else { assert (a + b)[i] == b[i - |a|]; }
      }
    }
    if TextFree(a + b) {
      forall i | 0 <= i < |a| ensures a[i].Text? ==> '?' !in a[i].s {
        assert (a + b)[i] == a[i];
      }
      forall i | 0 <= i < |b| ensures b[i].Text? ==> '?' !in b[i].s {
        assert (a + b)[i + |a|] == b[i];
      }
    }
  }
}
