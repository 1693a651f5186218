/** The request validators. Each Joi schema is the accept/reject predicate it
    declares; a middleware either calls `next()` or answers 400 itself. */
module Validation {
  import opened Js
  import opened Http

  /** The middleware calls `next()`, or ends the request with a response. */
  datatype Verdict = Next | Halt(resp: Response)

  /** The column types the schemas list. */
  const ColumnTypes: seq<string> := ["varchar", "text", "int", "integer", "bigint", "decimal", "float",
                                     "double", "boolean", "date", "datetime", "timestamp", "time", "year", "char"]

  predicate IsAlnum(c: char) {
    ('a' <= c <= 'z') || ('A' <= c <= 'Z') || ('0' <= c <= '9')
  }

  /** `Joi.string().alphanum().min(1).max(64)` */
  predicate ValidName(v: Value) {
    v.Str? && 1 <= |v.s| <= 64 && forall i :: 0 <= i < |v.s| ==> IsAlnum(v.s[i])
  }

  /** `Joi.string().valid(...)` on the type list */
  predicate ValidType(v: Value) {
    v.Str? && v.s in ColumnTypes
  }

  /** An optional key: absent, or present and accepted by `p`. */
  predicate Optional(fields: seq<(string, Value)>, k: string, p: Value -> bool) {
    Get(fields, k).Undefined? || p(Get(fields, k))
  }

  /** Only `0` characters. */
  predicate ZerosOnly(s: string) {
    forall i :: 0 <= i < |s| ==> s[i] == '0'
  }

  /** An unsigned integer numeral: decimal digits, then optionally `.` and zeros only. */
  function UnsignedInteger(u: string): Option<nat> {
    var k := DigitRun(u, 10);
    if k == 0 then None
    else if k == |u| || (u[k] == '.' && ZerosOnly(u[k + 1..])) then Some(DigitsValue(u[..k], 10))
    else None
  }

  /** The integer Joi's number conversion reads from a string without an exponent:
      surrounding whitespace, an optional sign, then an unsigned integer numeral. `None`
      when the text is not such a numeral (a non-zero fraction fails `integer()`, and
      everything else fails `number.base`). */
  function JoiInteger(s: string): Option<int> {
    var t := Trim(s);
    var signed := t != [] && (t[0] == '-' || t[0] == '+');
    var m := UnsignedInteger(if signed then t[1..] else t);
    if m.None? then None
    else
      var n: int := m.value;
      Some(if signed && t[0] == '-' then -n else n)
  }

  /** `Joi.number().integer().min(1).max(65535)`. Joi validates with `convert: true`, so a
      string holding such an integer is accepted as well. */
  predicate ValidLength(v: Value) {
    (v.Num? && 1 <= v.n <= 65535)
    || (v.Str? && JoiInteger(v.s).Some? && 1 <= JoiInteger(v.s).value <= 65535)
  }

  /** `Joi.boolean()`; with `convert: true` the strings `true` and `false` in any letter
      case are accepted too. */
  predicate ValidBool(v: Value) {
    v.Bool? || (v.Str? && ToLower(v.s) in ["true", "false"])
  }

  /** `Joi.alternatives().try(Joi.string(), Joi.number(), Joi.boolean())`; Joi strings are non-empty by default. */
  predicate ValidDefault(v: Value) {
    (v.Str? && v.s != "") || v.Num? || v.Bool?
  }

  /** `Joi.string().min(1).max(255)` */
  predicate ValidDisplayName(v: Value) {
    v.Str? && 1 <= |v.s| <= 255
  }

  /** Every key is one of `allowed` (Joi objects reject unknown keys). */
  predicate OnlyKeys(fields: seq<(string, Value)>, allowed: seq<string>) {
    forall i :: 0 <= i < |fields| ==> fields[i].0 in allowed
  }

  /** A column spec of the creation schema. */
  predicate ValidColumnSpec(v: Value) {
    v.Obj?
    && OnlyKeys(v.fields, ["name", "type", "length", "nullable", "primaryKey", "autoIncrement", "default"])
    && ValidName(Get(v.fields, "name")) && ValidType(Get(v.fields, "type"))
    && Optional(v.fields, "length", ValidLength)
    && Optional(v.fields, "nullable", ValidBool)
    && Optional(v.fields, "primaryKey", ValidBool)
    && Optional(v.fields, "autoIncrement", ValidBool)
    && Optional(v.fields, "default", ValidDefault)
  }

  /** A column spec of the `add_column` branch: no `primaryKey` and no `autoIncrement`. */
  predicate ValidAddColumnSpec(v: Value) {
    v.Obj?
    && OnlyKeys(v.fields, ["name", "type", "length", "nullable", "default"])
    && ValidName(Get(v.fields, "name")) && ValidType(Get(v.fields, "type"))
    && Optional(v.fields, "length", ValidLength)
    && Optional(v.fields, "nullable", ValidBool)
    && Optional(v.fields, "default", ValidDefault)
  }

  /** The `validateTableCreation` schema. A missing body is not rejected: the top-level
      object is not marked required. */
  predicate TableCreationValid(body: Value) {
    body.Undefined? ||
    (body.Obj?
     && OnlyKeys(body.fields, ["name", "displayName", "columns"])
     && ValidName(Get(body.fields, "name"))
     && Optional(body.fields, "displayName", ValidDisplayName)
     && var cols := Get(body.fields, "columns");
        cols.Arr? && |cols.items| >= 1
        && forall i :: 0 <= i < |cols.items| ==> ValidColumnSpec(cols.items[i]))
  }

  /** The `validateTableUpdate` schema: `column` is a spec when adding, a non-empty string otherwise. */
  predicate TableUpdateValid(body: Value) {
    body.Undefined? ||
    (body.Obj?
     && OnlyKeys(body.fields, ["action", "column"])
     && var action := Get(body.fields, "action");
        var column := Get(body.fields, "column");
        action.Str? && action.s in ["add_column", "delete_column", "modify_column"]
        && if action.s == "add_column" then ValidAddColumnSpec(column) else column.Str? && column.s != "")
  }

  /** A schema middleware: `next()` when `valid`, else 400 with Joi's first message. */
  function SchemaVerdict(valid: bool, message: string): (r: Verdict)
    ensures r.Next? <==> valid
    ensures r.Halt? ==> r.resp == Fail(400, message)
  {
    if valid then Next else Halt(Fail(400, message))
  }

  /** `validateTableCreation`; `message` stands for Joi's text. */
  function ValidateTableCreation(body: Value, message: string): (r: Verdict)
    ensures r.Next? <==> TableCreationValid(body)
    ensures r.Halt? ==> r.resp == Fail(400, message)
  {
    SchemaVerdict(TableCreationValid(body), message)
  }

  /** `validateTableUpdate` */
  function ValidateTableUpdate(body: Value, message: string): (r: Verdict)
    ensures r.Next? <==> TableUpdateValid(body)
    ensures r.Halt? ==> r.resp == Fail(400, message)
  {
    SchemaVerdict(TableUpdateValid(body), message)
  }

  /** `validateDataInput`: a falsy body or one whose `typeof` is not `object` is rejected;
      arrays pass. */
  function ValidateDataInput(body: Value): (r: Verdict)
    ensures r.Next? <==> body.Obj? || body.Arr?
    ensures r.Halt? ==> r.resp == Fail(400, "Invalid data format")
  {
    if !Truthy(body) || !(body.Obj? || body.Arr? || body.Null?) then Halt(Fail(400, "Invalid data format"))
    else Next
  }

  // ---------------------------------------------------------------------
  // Consequences of the schemas
  // ---------------------------------------------------------------------

  /** Accepted names have no underscore (or any other punctuation) and at most 64 characters. */
  lemma NamesAreAlphanumeric(v: Value)
    requires ValidName(v)
    ensures '_' !in v.s && 1 <= |v.s| <= 64
  {
  }

  /** Both `int` and `integer` are accepted; the match is case-sensitive. */
  lemma TypeList()
    ensures ValidType(Str("int")) && ValidType(Str("integer"))
    ensures !ValidType(Str("INT")) && !ValidType(Str("json"))
    ensures |ColumnTypes| == 15
  {
  }

  lemma {:induction false} GetPresentKey(fields: seq<(string, Value)>, k: string)
    requires !Get(fields, k).Undefined?
    ensures HasKey(fields, k)
  {
    if fields != [] && fields[0].0 != k {
      GetPresentKey(fields[1..], k);
      var i :| 0 <= i < |fields[1..]| && fields[1..][i].0 == k;
      assert fields[i + 1].0 == k;
    }
  }

  /** The `add_column` branch rejects a spec that carries `primaryKey` or `autoIncrement`. */
  lemma AddColumnRejectsKeyFlags(v: Value)
    requires v.Obj? && (!Get(v.fields, "primaryKey").Undefined? || !Get(v.fields, "autoIncrement").Undefined?)
    ensures !ValidAddColumnSpec(v)
  {
    if !Get(v.fields, "primaryKey").Undefined? {
      GetPresentKey(v.fields, "primaryKey");
    } else {
      GetPresentKey(v.fields, "autoIncrement");
    }
  }

  /** An update that is not `add_column` must name its column by a non-empty string. */
  lemma UpdateColumnConditional(body: Value)
    requires body.Obj? && Get(body.fields, "action") in [Str("delete_column"), Str("modify_column")]
    ensures TableUpdateValid(body) ==> Get(body.fields, "column").Str? && Get(body.fields, "column").s != ""
    ensures TableUpdateValid(body)
        <==> (OnlyKeys(body.fields, ["action", "column"]) && Get(body.fields, "column").Str? && Get(body.fields, "column").s != "")
  {
  }

  /** Lengths outside 1..65535 are rejected, whether sent as a number or as its numeral. */
  lemma LengthRange(n: int)
    ensures ValidLength(Num(n)) <==> 1 <= n <= 65535
    ensures ValidLength(Str(NumberToString(n))) <==> 1 <= n <= 65535
  {
    NumeralConverts(n);
  }

  /** Joi's conversion reads back the integer a numeral was printed from. */
  lemma NumeralConverts(n: int)
    ensures JoiInteger(NumberToString(n)) == Some(n)
  {
    var m: nat := if n < 0 then -n else n;
    var d := NatToDecimal(m);
    var s := NumberToString(n);
    DigitsConvert(m);
    NumeralUntrimmed(n);
    DecimalAllDigits(m);
    if n < 0 {
      assert s == "-" + d;
      assert s[0] == '-' && s[1..] == d;
    } else {
      assert s == d && IsDigit(s[0]);
    }
  }

  lemma DigitsConvert(m: nat)
    ensures UnsignedInteger(NatToDecimal(m)) == Some(m)
  {
    var d := NatToDecimal(m);
    DecimalAllDigits(m);
    AllDigitsRun(d);
    DecimalValue(m);
    assert d[..|d|] == d;
  }

  lemma NumeralUntrimmed(n: int)
    ensures Trim(NumberToString(n)) == NumberToString(n)
  {
    var m: nat := if n < 0 then -n else n;
    var d := NatToDecimal(m);
    var s := NumberToString(n);
    DecimalAllDigits(m);
    assert IsDigit(d[0]) && IsDigit(d[|d| - 1]);
    if n < 0 {
      assert s == "-" + d;
      assert s[|s| - 1] == d[|d| - 1];
    }
    assert TrimStart(s) == s;
    assert TrimEnd(s) == s;
  }

  /** The conversion accepts surrounding whitespace, a sign, leading zeros and a zero
      fraction, and still rejects a non-zero fraction and text that is not a numeral. */
  lemma ConvertedLengths()
    ensures ValidLength(Str(" +0010.00 ")) && !ValidLength(Str("10.5")) && !ValidLength(Str("ten"))
  {
    PaddedNumeral();
    NonZeroFraction();
    NotNumeral();
  }

  lemma PaddedNumeral()
    ensures JoiInteger(" +0010.00 ") == Some(10)
  {
    PaddedTrim();
    var u := "+0010.00";
    assert u[0] == '+' && u[1..] == "0010.00";
    ZeroFraction();
  }

  lemma PaddedTrim()
    ensures Trim(" +0010.00 ") == "+0010.00"
  {
    var t := " +0010.00 ";
    assert TrimStart(t) == t[1..] by {
      assert !IsSpace(t[1]);
    }
    assert TrimEnd(t[1..]) == t[1..|t| - 1] by {
      assert !IsSpace(t[|t| - 2]);
    }
    assert t[1..|t| - 1] == "+0010.00";
  }

  lemma NotNumeral()
    ensures JoiInteger("ten") == None
  {
    assert TrimStart("ten") == "ten" && TrimEnd("ten") == "ten";
  }

  lemma ZeroFraction()
    ensures UnsignedInteger("0010.00") == Some(10)
  {
    var u := "0010.00";
    assert DigitRun(u, 10) == 4 by {
      assert u[1..][1..][1..][1..] == ".00";
    }
    assert u[..4] == "0010" && u[5..] == "00";
    assert DigitsValue("0010", 10) == 10 by {
      assert "0010"[..3] == "001" && "001"[..2] == "00" && "00"[..1] == "0" && "0"[..0] == [];
    }
  }

  lemma NonZeroFraction()
    ensures JoiInteger("10.5") == None
  {
    var v := "10.5";
    assert TrimStart(v) == v && TrimEnd(v) == v;
    assert DigitRun(v, 10) == 2 by {
      assert v[1..][1..] == ".5";
    }
    assert v[3..] == "5";
  }

  /** Boolean strings are matched in any letter case but are not trimmed; numbers are not
      converted. */
  lemma ConvertedBools()
    ensures ValidBool(Str("FALSE")) && ValidBool(Str("false")) && ValidBool(Str("true"))
    ensures !ValidBool(Str(" true")) && !ValidBool(Num(1))
  {
    assert ToLower("false") == "false";
    assert ToLower("FALSE") == "false";
    assert ToLower("true") == "true";
    assert ToLower(" true")[0] == ' ';
  }
}
