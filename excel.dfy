/** Spreadsheet handling shared by the Excel import scripts: header normalisation, the
    data-row filter, header lookup, quantity extraction and the header-by-header filling of
    a row record. */
module Excel {
  import opened Js

  /** A worksheet row as `sheet_to_json(ws, { header: 1 })` yields it. The holes of a
      sparse row read as `undefined`. */
  type Row = seq<Value>

  datatype Sheet = Sheet(name: string, rows: seq<Row>)

  /** `row[index]`: `undefined` past the end. */
  function Cell(row: Row, i: nat): Value {
    if i < |row| then row[i] else Undefined
  }

  // ---------------------------------------------------------------------
  // Headers
  // ---------------------------------------------------------------------

  /** The text a header cell is trimmed from: a string as it is, anything else through
      `String(h || '')`. */
  function HeaderText(h: Value): string {
    if h.Str? then h.s else ToStr(Or(h, Str("")))
  }

  /** `typeof h === 'string' ? h.trim() : String(h || '').trim()` */
  function TrimmedHeader(h: Value): string {
    Trim(HeaderText(h))
  }

  function TrimmedHeaders(first: Row): (r: seq<string>)
    ensures |r| == |first|
    ensures forall i :: 0 <= i < |first| ==> r[i] == TrimmedHeader(first[i])
  {
    seq(|first|, i requires 0 <= i < |first| => TrimmedHeader(first[i]))
  }

  /** Falsy header cells (empty, `0`, `false`, `null`, `undefined`, NaN) become `''`. */
  lemma FalsyHeaderIsEmpty(h: Value)
    requires !Truthy(h)
    ensures TrimmedHeader(h) == ""
  {
    assert HeaderText(h) == "";
  }

  /** A trimmed header is its own trim: trimming is the whole normalisation. */
  lemma TrimmedHeaderStable(h: Value)
    ensures Trim(TrimmedHeader(h)) == TrimmedHeader(h)
  {
    TrimIdempotent(HeaderText(h));
  }

  // ---------------------------------------------------------------------
  // Data rows
  // ---------------------------------------------------------------------

  /** The negation of `cell !== undefined && cell !== null && String(cell).trim() !== ''`. */
  predicate Blank(cell: Value) {
    cell.Undefined? || cell.Null? || Trim(ToStr(cell)) == ""
  }

  /** `row && row.some(cell => !Blank(cell))`. */
  predicate HasContent(row: Row) {
    exists i :: 0 <= i < |row| && !Blank(row[i])
  }

  /** `rows.filter(HasContent)` */
  function DataRows(rows: seq<Row>): (r: seq<Row>)
    ensures |r| <= |rows|
    ensures forall x :: x in r <==> x in rows && HasContent(x)
  {
    if rows == [] then []
    else (if HasContent(rows[0]) then [rows[0]] else []) + DataRows(rows[1..])
  }

  /** The filter commutes with concatenation, so kept rows stay in sheet order. */
  lemma {:induction false} DataRowsAppend(a: seq<Row>, b: seq<Row>)
    ensures DataRows(a + b) == DataRows(a) + DataRows(b)
  {
    if a == [] {
      assert a + b == b;
    } else {
      assert (a + b)[1..] == a[1..] + b;
      DataRowsAppend(a[1..], b);
    }
  }

  /** A row of blank cells only (whitespace, `null`, holes) is dropped; a row with one
      non-blank cell is kept. */
  lemma DataRowsSingle(row: Row)
    ensures DataRows([row]) == if HasContent(row) then [row] else []
  {
    assert [row][1..] == [];
  }

  // ---------------------------------------------------------------------
  // Header mapping
  // ---------------------------------------------------------------------

  type Mapping = seq<(string, string)>

  /** `headerMapping[header]` on an object literal whose keys are distinct. */
  function Lookup(m: Mapping, h: string): (r: Option<string>)
    ensures r.None? ==> forall i :: 0 <= i < |m| ==> m[i].0 != h
  {
    if m == [] then None else if m[0].0 == h then Some(m[0].1) else Lookup(m[1..], h)
  }

  /** A header maps to a column only through an entry with that key and that column. */
  lemma {:induction false} LookupFound(m: Mapping, h: string)
    requires Lookup(m, h).Some?
    ensures exists i :: 0 <= i < |m| && m[i] == (h, Lookup(m, h).value)
  {
    if m[0].0 != h {
      LookupFound(m[1..], h);
      var i :| 0 <= i < |m[1..]| && m[1..][i] == (h, Lookup(m, h).value);
      assert m[i + 1] == (h, Lookup(m, h).value);
    } else {
      assert m[0] == (h, Lookup(m, h).value);
    }
  }

  predicate EndsInSpace(k: string) {
    k != [] && IsSpace(k[|k| - 1])
  }

  /** A key that does not end in whitespace never maps to a column all of whose keys do. */
  lemma KeyMisses(m: Mapping, t: string, k: string)
    requires forall i :: 0 <= i < |m| && m[i].1 == k ==> EndsInSpace(m[i].0)
    requires !EndsInSpace(t)
    ensures Lookup(m, t) != Some(k)
  {
    if Lookup(m, t) == Some(k) {
      LookupFound(m, t);
    }
  }

  /** When every key that maps to `k` ends in whitespace, no trimmed header maps to `k`. */
  lemma TrimmedHeaderMisses(m: Mapping, h: Value, k: string)
    requires forall i :: 0 <= i < |m| && m[i].1 == k ==> EndsInSpace(m[i].0)
    ensures Lookup(m, TrimmedHeader(h)) != Some(k)
  {
    var t := TrimmedHeader(h);
    if EndsInSpace(t) {
      TrimmedNeverEndsInSpace(HeaderText(h), t);
    }
    KeyMisses(m, t, k);
  }

  // ---------------------------------------------------------------------
  // Quantities: `value.match(/(\d+)/)` and `parseInt` of the match
  // ---------------------------------------------------------------------

  /** The index of the first decimal digit of `s`, `|s|` when there is none. */
  function FirstDigit(s: string): (i: nat)
    ensures i <= |s|
    ensures i < |s| ==> IsDigit(s[i])
  {
    if s == [] then 0 else if IsDigit(s[0]) then 0 else 1 + FirstDigit(s[1..])
  }

  /** Only non-digits come before the first digit. */
  lemma {:induction false} FirstDigitSpec(s: string)
    ensures forall j :: 0 <= j < FirstDigit(s) ==> !IsDigit(s[j])
  {
    if s != [] && !IsDigit(s[0]) {
      FirstDigitSpec(s[1..]);
      forall j | 0 <= j < FirstDigit(s) ensures !IsDigit(s[j]) {
        if j > 0 {
          assert s[j] == s[1..][j - 1];
        }
      }
    }
  }

  /** The first capture of `/(\d+)/`: the leftmost maximal run of decimal digits. */
  function DigitMatch(s: string): Option<string> {
    var i := FirstDigit(s);
    if i == |s| then None else Some(s[i..i + DigitRun(s[i..], 10)])
  }

  /** `quantityMatch ? parseInt(quantityMatch[1]) : 0` */
  function Quantity(s: string): Value {
    match DigitMatch(s)
    case None => Num(0)
    case Some(d) => ParseInt(d)
  }

  /** There is no capture exactly when the text has no decimal digit. */
  lemma DigitMatchNone(s: string)
    ensures DigitMatch(s).None? <==> forall j :: 0 <= j < |s| ==> !IsDigit(s[j])
  {
    FirstDigitSpec(s);
  }

  /** `d` is a maximal run of decimal digits of `s` starting at index `i`: non-empty, all
      digits, and not followed by a digit. */
  predicate DigitRunAt(s: string, i: nat, d: string) {
    d != [] && i + |d| <= |s| && s[i..i + |d|] == d
    && (forall j :: 0 <= j < |d| ==> IsDigit(d[j]))
    && (i + |d| < |s| ==> !IsDigit(s[i + |d|]))
  }

  /** The captured run starts at the first digit (`FirstDigitSpec` says only non-digits
      come before it) and is a maximal run of digits there. */
  lemma DigitMatchSome(s: string)
    requires DigitMatch(s).Some?
    ensures DigitRunAt(s, FirstDigit(s), DigitMatch(s).value)
  {
    var i := FirstDigit(s);
    var t := s[i..];
    var k := DigitRun(t, 10);
    var d := s[i..i + k];
    assert DigitMatch(s).value == d;
    DecimalRun(t);
    RunOfDigits(s, i, t, k, d);
  }

  /** A run of `k` digits read off `t == s[i..]`, in terms of `s` itself. */
  lemma RunOfDigits(s: string, i: nat, t: string, k: nat, d: string)
    requires i < |s| && t == s[i..] && k <= |t| && d == s[i..i + k]
    requires IsDigit(t[0]) ==> k > 0
    requires forall j :: 0 <= j < k ==> IsDigit(t[j])
    requires k < |t| ==> !IsDigit(t[k])
    requires IsDigit(s[i])
    ensures DigitRunAt(s, i, d)
  {
    assert t[0] == s[i];
    forall j | 0 <= j < |d| ensures IsDigit(d[j]) {
      assert d[j] == t[j];
    }
    if i + k < |s| {
      assert s[i + k] == t[k];
    }
  }

  /** The decimal run of a text in terms of decimal digits. */
  lemma DecimalRun(t: string)
    ensures var k := DigitRun(t, 10);
      (forall j :: 0 <= j < k ==> IsDigit(t[j]))
      && (k < |t| ==> !IsDigit(t[k]))
      && (t != [] && IsDigit(t[0]) ==> k > 0)
  {
    var k := DigitRun(t, 10);
    forall j | 0 <= j < k ensures IsDigit(t[j]) {
      DecimalDigit(t[j]);
    }
    if k < |t| {
      DecimalDigit(t[k]);
    }
    if t != [] {
      DecimalDigit(t[0]);
    }
  }

  /** The quantity is the value of the captured digits, and 0 when there is no digit. */
  lemma QuantityValue(s: string)
    ensures DigitMatch(s).None? ==> Quantity(s) == Num(0)
    ensures DigitMatch(s).Some? ==> Quantity(s) == Num(DigitsValue(DigitMatch(s).value, 10))
  {
    if DigitMatch(s).Some? {
      DigitMatchSome(s);
      var d := DigitMatch(s).value;
      MagnitudeOfDigits(d);
      UnsignedMagnitude(d, DigitsValue(d, 10));
    }
  }

  /** A number written among non-digit text is read back exactly. */
  lemma QuantityOfNumeral(p: string, n: nat, q: string)
    requires forall j :: 0 <= j < |p| ==> !IsDigit(p[j])
    requires q != [] ==> !IsDigit(q[0])
    ensures Quantity(p + NatToDecimal(n) + q) == Num(n)
  {
    var s := p + NatToDecimal(n) + q;
    var d := NatToDecimal(n);
    DecimalAllDigits(n);
    FirstDigitAfter(p, d + q);
    assert s == p + (d + q);
    assert s[|p|..] == d + q;
    DigitRunPrefix(d, q);
    assert s[|p|..|p| + |d|] == d;
    assert DigitMatch(s) == Some(d);
    QuantityValue(s);
    DecimalValue(n);
  }

  lemma {:induction false} FirstDigitAfter(p: string, t: string)
    requires forall j :: 0 <= j < |p| ==> !IsDigit(p[j])
    requires t != [] && IsDigit(t[0])
    ensures FirstDigit(p + t) == |p|
  {
    if p != [] {
      assert (p + t)[1..] == p[1..] + t;
      FirstDigitAfter(p[1..], t);
    } else {
      assert p + t == t;
    }
  }

  lemma {:induction false} DigitRunPrefix(d: string, q: string)
    requires forall j :: 0 <= j < |d| ==> IsDigit(d[j])
    requires q != [] ==> !IsDigit(q[0])
    ensures DigitRun(d + q, 10) == |d|
  {
    var s := d + q;
    if d != [] {
      assert s[0] == d[0];
      DecimalDigit(d[0]);
      assert s[1..] == d[1..] + q;
      DigitRunPrefix(d[1..], q);
    } else {
      assert s == q;
      if q != [] {
        DecimalDigit(q[0]);
      }
    }
  }

  // ---------------------------------------------------------------------
  // Filling a row record: `headers.forEach((header, index) => { ... switch ... })`
  // ---------------------------------------------------------------------

  type Fields = seq<(string, Value)>

  /** The `case` labels of a script's `switch (dbColumn)` and whether it has a `default`
      that stores the value under the column's own name. */
  datatype Switch = Switch(cases: seq<string>, hasDefault: bool)

  predicate Handles(sw: Switch, column: string) {
    column in sw.cases || sw.hasDefault
  }

  /** `isNaN(parseFloat(value)) ? 0.00 : parseFloat(value)` */
  function PriceOf(value: string): Value {
    var p := ParseFloat(value);
    if p.NaN? then Num(0) else p
  }

  /** What a handled column stores for a trimmed, non-blank cell: price and quantity are
      parsed, everything else is the text itself. (The `status` case of `value ||
      'active'` stores `value`, which is never empty here.) */
  function Converted(column: string, value: string): Value {
    if column == "price" then PriceOf(value)
    else if column == "stock_quantity" then Quantity(value)
    else Str(value)
  }

  /** Whether header `header` with cell `cell` writes field `k`. */
  predicate Writes(m: Mapping, sw: Switch, header: string, cell: Value, k: string) {
    Lookup(m, header) == Some(k) && !Blank(cell) && Handles(sw, k)
  }

  /** One visit of the `forEach` callback. */
  function Visit(m: Mapping, sw: Switch, fields: Fields, header: string, cell: Value): Fields {
    var column := Lookup(m, header);
    if column.Some? && !Blank(cell) && Handles(sw, column.value)
    then Put(fields, column.value, Converted(column.value, Trim(ToStr(cell))))
    else fields
  }

  /** `rowData` after the callback has visited the first `n` headers. */
  function Filled(m: Mapping, sw: Switch, headers: seq<string>, row: Row, defaults: Fields, n: nat): Fields
    requires n <= |headers|
  {
    if n == 0 then defaults
    else Visit(m, sw, Filled(m, sw, headers, row, defaults, n - 1), headers[n - 1], Cell(row, n - 1))
  }

  /** For each header, whether it writes field `k` for this row. */
  function WriteFlags(m: Mapping, sw: Switch, headers: seq<string>, row: Row, k: string): (f: seq<bool>)
    ensures |f| == |headers|
    ensures forall j :: 0 <= j < |f| ==> f[j] == Writes(m, sw, headers[j], Cell(row, j), k)
  {
    seq(|headers|, j requires 0 <= j < |headers| => Writes(m, sw, headers[j], Cell(row, j), k))
  }

  /** One more than the index of the last `true` among the first `n` flags, or 0. */
  function LastTrue(f: seq<bool>, n: nat): (w: nat)
    requires n <= |f|
    ensures w <= n
  {
    if n == 0 then 0 else if f[n - 1] then n else LastTrue(f, n - 1)
  }

  /** The flag at the last `true` is set, and none after it is. */
  lemma {:induction false} LastTrueSpec(f: seq<bool>, n: nat)
    requires n <= |f|
    ensures var w := LastTrue(f, n);
      (w > 0 ==> f[w - 1]) && forall j :: w <= j < n ==> !f[j]
  {
    if n > 0 && !f[n - 1] {
      LastTrueSpec(f, n - 1);
    }
  }

  /** One more than the index of the last of the first `n` headers that writes `k`, or 0. */
  function LastWriter(m: Mapping, sw: Switch, headers: seq<string>, row: Row, k: string, n: nat): (w: nat)
    requires n <= |headers|
    ensures w <= n
  {
    LastTrue(WriteFlags(m, sw, headers, row, k), n)
  }

  /** Each field ends up holding the converted, trimmed cell of the last header that writes
      it, and keeps its default when no header does: later columns win, blank cells and
      unmapped or unhandled headers change nothing. */
  lemma FilledField(m: Mapping, sw: Switch, headers: seq<string>, row: Row, defaults: Fields, k: string, n: nat)
    requires n <= |headers|
    ensures var w := LastWriter(m, sw, headers, row, k, n);
      Get(Filled(m, sw, headers, row, defaults, n), k)
      == if w == 0 then Get(defaults, k) else Converted(k, Trim(ToStr(Cell(row, w - 1))))
  {
    var w := LastWriter(m, sw, headers, row, k, n);
    LastWriterSpec(m, sw, headers, row, k, n);
    FilledUnchanged(m, sw, headers, row, defaults, k, w, n);
    if w > 0 {
      FilledStep(m, sw, headers, row, defaults, k, w);
    }
  }

  /** The last writer writes `k`, and no later header among the first `n` does. */
  lemma LastWriterSpec(m: Mapping, sw: Switch, headers: seq<string>, row: Row, k: string, n: nat)
    requires n <= |headers|
    ensures var w := LastWriter(m, sw, headers, row, k, n);
      (w > 0 ==> Writes(m, sw, headers[w - 1], Cell(row, w - 1), k))
      && forall j :: w <= j < n ==> !Writes(m, sw, headers[j], Cell(row, j), k)
  {
    var f := WriteFlags(m, sw, headers, row, k);
    var w := LastTrue(f, n);
    LastTrueSpec(f, n);
    forall j | w <= j < n ensures !Writes(m, sw, headers[j], Cell(row, j), k) {
      assert !f[j];
    }
    if w > 0 {
      assert f[w - 1];
    }
  }

  /** Headers that do not write `k` leave it as it was. */
  lemma {:induction false} FilledUnchanged(m: Mapping, sw: Switch, headers: seq<string>, row: Row, defaults: Fields, k: string, i: nat, n: nat)
    requires i <= n <= |headers|
    requires forall j :: i <= j < n ==> !Writes(m, sw, headers[j], Cell(row, j), k)
    ensures Get(Filled(m, sw, headers, row, defaults, n), k) == Get(Filled(m, sw, headers, row, defaults, i), k)
  {
    if i < n {
      assert !Writes(m, sw, headers[n - 1], Cell(row, n - 1), k);
      FilledKeeps(m, sw, headers, row, defaults, k, n);
      FilledUnchanged(m, sw, headers, row, defaults, k, i, n - 1);
    }
  }

  lemma FilledKeeps(m: Mapping, sw: Switch, headers: seq<string>, row: Row, defaults: Fields, k: string, n: nat)
    requires 0 < n <= |headers|
    requires !Writes(m, sw, headers[n - 1], Cell(row, n - 1), k)
    ensures Get(Filled(m, sw, headers, row, defaults, n), k) == Get(Filled(m, sw, headers, row, defaults, n - 1), k)
  {
    FilledStep(m, sw, headers, row, defaults, k, n);
  }

  /** The `n`-th visit writes `k` exactly when its header writes it, and leaves it alone
      otherwise. */
  lemma FilledStep(m: Mapping, sw: Switch, headers: seq<string>, row: Row, defaults: Fields, k: string, n: nat)
    requires 0 < n <= |headers|
    ensures Get(Filled(m, sw, headers, row, defaults, n), k)
         == if Writes(m, sw, headers[n - 1], Cell(row, n - 1), k) then Converted(k, Trim(ToStr(Cell(row, n - 1))))
            else Get(Filled(m, sw, headers, row, defaults, n - 1), k)
  {
    VisitField(m, sw, Filled(m, sw, headers, row, defaults, n - 1), headers[n - 1], Cell(row, n - 1), k);
  }

  /** One visit writes `k` exactly when the header writes it. */
  lemma VisitField(m: Mapping, sw: Switch, prev: Fields, header: string, cell: Value, k: string)
    ensures Get(Visit(m, sw, prev, header, cell), k)
         == if Writes(m, sw, header, cell, k) then Converted(k, Trim(ToStr(cell))) else Get(prev, k)
  {
    var column := Lookup(m, header);
    if column.Some? && !Blank(cell) && Handles(sw, column.value) {
      GetAfterPut(prev, column.value, Converted(column.value, Trim(ToStr(cell))), k);
    }
  }

  lemma GetAfterPut(f: Fields, c: string, v: Value, k: string)
    ensures Get(Put(f, c, v), k) == if c == k then v else Get(f, k)
  {
  }

  /** The `forEach` over the headers, field by field. */
  method FillRow(m: Mapping, sw: Switch, headers: seq<string>, row: Row, defaults: Fields) returns (rowData: Fields)
    ensures rowData == Filled(m, sw, headers, row, defaults, |headers|)
  {
    rowData := defaults;
    var index := 0;
    while index < |headers|
      invariant 0 <= index <= |headers|
      invariant rowData == Filled(m, sw, headers, row, defaults, index)
    {
      rowData := Visit(m, sw, rowData, headers[index], Cell(row, index));
      index := index + 1;
    }
  }

  /** A field every one of whose mapping keys ends in whitespace keeps its default for
      every row, whatever the header row of the sheet. */
  lemma NeverWritten(m: Mapping, sw: Switch, first: Row, row: Row, defaults: Fields, k: string)
    requires forall i :: 0 <= i < |m| && m[i].1 == k ==> EndsInSpace(m[i].0)
    ensures Get(Filled(m, sw, TrimmedHeaders(first), row, defaults, |first|), k) == Get(defaults, k)
  {
    var headers := TrimmedHeaders(first);
    var w := LastWriter(m, sw, headers, row, k, |first|);
    LastWriterSpec(m, sw, headers, row, k, |first|);
    if w > 0 {
      TrimmedHeaderMisses(m, first[w - 1], k);
    }
    FilledField(m, sw, headers, row, defaults, k, |first|);
  }

  /** A field that no `case` handles and no `default` stores keeps its default for every
      row, whichever headers map to it. */
  lemma UnhandledNeverWritten(m: Mapping, sw: Switch, headers: seq<string>, row: Row, defaults: Fields, k: string)
    requires !Handles(sw, k)
    ensures Get(Filled(m, sw, headers, row, defaults, |headers|), k) == Get(defaults, k)
  {
    var w := LastWriter(m, sw, headers, row, k, |headers|);
    LastWriterSpec(m, sw, headers, row, k, |headers|);
    FilledField(m, sw, headers, row, defaults, k, |headers|);
  }
}
