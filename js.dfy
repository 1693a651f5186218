/** JavaScript values as the route handlers and the Excel import scripts see
    them, with the built-in conversions they lean on: truthiness, `String(v)`,
    `trim`, `parseInt`, `parseFloat`, ASCII case mapping and substring tests.
    Numbers are integers; `NaN` is the one non-integer number that the code
    can produce (from `parseInt`), so it has a constructor of its own. */
module Js {

  datatype Option<T> = None | Some(value: T)

  datatype Value =
    | Undefined
    | Null
    | Bool(b: bool)
    | Num(n: int)
    | NaN
    | Str(s: string)
    | Arr(items: seq<Value>)
    | Obj(fields: seq<(string, Value)>)

  /** JavaScript truthiness, as used by `if (v)` and `v || d`. */
  predicate Truthy(v: Value) {
    match v
    case Undefined => false
    case Null => false
    case Bool(b) => b
    case Num(n) => n != 0
    case NaN => false
    case Str(s) => s != ""
    case Arr(_) => true
    case Obj(_) => true
  }

  /** `a || b` */
  function Or(a: Value, b: Value): Value {
    if Truthy(a) then a else b
  }

  /** Own-property lookup `o[k]` on an object's fields (first occurrence); `undefined` when absent
      or when `o` is not an object. */
  function Get(fields: seq<(string, Value)>, k: string): Value {
    if fields == [] then Undefined
    else if fields[0].0 == k then fields[0].1
    else Get(fields[1..], k)
  }

  function Prop(o: Value, k: string): Value {
    if o.Obj? then Get(o.fields, k) else Undefined
  }

  lemma GetCons(p: (string, Value), rest: seq<(string, Value)>, k: string)
    ensures Get([p] + rest, k) == if p.0 == k then p.1 else Get(rest, k)
  {
    assert ([p] + rest)[1..] == rest;
  }

  predicate HasKey(fields: seq<(string, Value)>, k: string) {
    exists i :: 0 <= i < |fields| && fields[i].0 == k
  }

  function Keys(fields: seq<(string, Value)>): (r: seq<string>)
    ensures |r| == |fields|
    ensures forall i :: 0 <= i < |fields| ==> r[i] == fields[i].0
  {
    if fields == [] then [] else [fields[0].0] + Keys(fields[1..])
  }

  function Values(fields: seq<(string, Value)>): (r: seq<Value>)
    ensures |r| == |fields|
    ensures forall i :: 0 <= i < |fields| ==> r[i] == fields[i].1
  {
    if fields == [] then [] else [fields[0].1] + Values(fields[1..])
  }

  // ---------------------------------------------------------------------
  // Decimal numerals
  // ---------------------------------------------------------------------

  predicate IsDigit(c: char) {
    '0' <= c <= '9'
  }

  function DigitChar(d: nat): (c: char)
    requires d < 10
    ensures IsDigit(c)
  {
    (('0' as int) + d) as char
  }

  /** The decimal numeral of a natural number, without leading zeros. */
  function NatToDecimal(n: nat): (s: string)
    ensures |s| > 0
    decreases n
  {
    if n < 10 then [DigitChar(n)] else NatToDecimal(n / 10) + [DigitChar(n % 10)]
  }

  /** `String(n)` for an integer (no exponent form: integers are modelled unbounded). */
  function NumberToString(n: int): string {
    if n < 0 then "-" + NatToDecimal(-n) else NatToDecimal(n)
  }

  /** `String(v)`. Array elements that are null or undefined print as the empty string. */
  function ToStr(v: Value): string
    decreases v
  {
    match v
    case Undefined => "undefined"
    case Null => "null"
    case Bool(b) => if b then "true" else "false"
    case Num(n) => NumberToString(n)
    case NaN => "NaN"
    case Str(s) => s
    case Arr(items) =>
      Join(seq(|items|, i requires 0 <= i < |items| =>
        if items[i].Undefined? || items[i].Null? then "" else ToStr(items[i])), ",")
    case Obj(_) => "[object Object]"
  }

  function Join(parts: seq<string>, sep: string): string {
    if parts == [] then ""
    else if |parts| == 1 then parts[0]
    else parts[0] + sep + Join(parts[1..], sep)
  }

  // ---------------------------------------------------------------------
  // Whitespace and trim
  // ---------------------------------------------------------------------

  /** ECMAScript WhiteSpace and LineTerminator code points, the set `trim` removes. */
  predicate IsSpace(c: char) {
    c == ' ' || c == '\t' || c == '\n' || c == '\r' || c == '\U{000B}' || c == '\U{000C}'
    || c == '\U{00A0}' || c == '\U{1680}' || ('\U{2000}' <= c <= '\U{200A}')
    || c == '\U{2028}' || c == '\U{2029}' || c == '\U{202F}' || c == '\U{205F}'
    || c == '\U{3000}' || c == '\U{FEFF}'
  }

  function TrimStart(s: string): (r: string)
    ensures |r| <= |s|
  {
    if s != [] && IsSpace(s[0]) then TrimStart(s[1..]) else s
  }

  function TrimEnd(s: string): (r: string)
    ensures |r| <= |s|
  {
    if s != [] && IsSpace(s[|s| - 1]) then TrimEnd(s[..|s| - 1]) else s
  }

  /** `s.trim()` */
  function Trim(s: string): string {
    TrimEnd(TrimStart(s))
  }

  predicate AllSpace(s: string) {
    forall i :: 0 <= i < |s| ==> IsSpace(s[i])
  }

  /** How many whitespace characters `trimStart` removes. */
  function LeadingSpaces(s: string): (n: nat)
    ensures n <= |s|
  {
    if s != [] && IsSpace(s[0]) then 1 + LeadingSpaces(s[1..]) else 0
  }

  /** How many whitespace characters `trimEnd` removes. */
  function TrailingSpaces(s: string): (n: nat)
    ensures n <= |s|
  {
    if s != [] && IsSpace(s[|s| - 1]) then 1 + TrailingSpaces(s[..|s| - 1]) else 0
  }

  /** `trimStart` drops exactly the leading whitespace run, and the next character is not
      whitespace. */
  lemma {:induction false} TrimStartShape(s: string)
    ensures TrimStart(s) == s[LeadingSpaces(s)..]
    ensures forall i :: 0 <= i < LeadingSpaces(s) ==> IsSpace(s[i])
    ensures LeadingSpaces(s) < |s| ==> !IsSpace(s[LeadingSpaces(s)])
  {
    if s != [] && IsSpace(s[0]) {
      var u := s[1..];
      TrimStartShape(u);
      assert u[LeadingSpaces(u)..] == s[LeadingSpaces(s)..];
      forall i | 0 < i < LeadingSpaces(s) ensures IsSpace(s[i]) {
        assert s[i] == u[i - 1];
      }
    }
  }

  /** `trimEnd` drops exactly the trailing whitespace run, and the character before it is
      not whitespace. */
  lemma {:induction false} TrimEndShape(s: string)
    ensures TrimEnd(s) == s[..|s| - TrailingSpaces(s)]
    ensures forall i :: |s| - TrailingSpaces(s) <= i < |s| ==> IsSpace(s[i])
    ensures TrailingSpaces(s) < |s| ==> !IsSpace(s[|s| - TrailingSpaces(s) - 1])
  {
    if s != [] && IsSpace(s[|s| - 1]) {
      var p := s[..|s| - 1];
      TrimEndShape(p);
      assert p[..|p| - TrailingSpaces(p)] == s[..|s| - TrailingSpaces(s)];
      forall i | |s| - TrailingSpaces(s) <= i < |s| - 1 ensures IsSpace(s[i]) {
        assert s[i] == p[i];
      }
    }
  }

  /** A trimmed string neither starts nor ends with whitespace, and it is empty exactly
      when the original consisted of whitespace only. */
  lemma TrimShape(s: string)
    ensures Trim(s) == [] || (!IsSpace(Trim(s)[0]) && !IsSpace(Trim(s)[|Trim(s)| - 1]))
    ensures Trim(s) == [] <==> AllSpace(s)
  {
    TrimStartShape(s);
    var a := LeadingSpaces(s);
    var t := s[a..];
    TrimEndShape(t);
    var m := |t| - TrailingSpaces(t);
    assert Trim(s) == t[..m];
    if a < |s| {
      assert !IsSpace(t[0]);
      assert m > 0;
      assert Trim(s)[0] == s[a];
      assert Trim(s)[m - 1] == t[m - 1];
      assert !AllSpace(s);
    } else {
      assert AllSpace(s);
    }
  }

  /** Trimming twice is trimming once. */
  lemma TrimIdempotent(s: string)
    ensures Trim(Trim(s)) == Trim(s)
  {
    var t := Trim(s);
    TrimShape(s);
    if t != [] {
      assert TrimStart(t) == t;
      assert TrimEnd(t) == t;
    }
  }

  /** A string whose last character is whitespace is never the result of `trim`. */
  lemma TrimmedNeverEndsInSpace(h: string, key: string)
    requires key != [] && IsSpace(key[|key| - 1])
    ensures Trim(h) != key
  {
    TrimShape(h);
  }

  // ---------------------------------------------------------------------
  // Case mapping and substring tests (ASCII case folding only)
  // ---------------------------------------------------------------------

  function LowerChar(c: char): char {
    if 'A' <= c <= 'Z' then ((c as int) + 32) as char else c
  }

  function UpperChar(c: char): char {
    if 'a' <= c <= 'z' then ((c as int) - 32) as char else c
  }

  /** `s.toLowerCase()` restricted to ASCII letters. */
  function ToLower(s: string): (r: string)
    ensures |r| == |s|
  {
    seq(|s|, i requires 0 <= i < |s| => LowerChar(s[i]))
  }

  /** `s.toUpperCase()` restricted to ASCII letters. */
  function ToUpper(s: string): (r: string)
    ensures |r| == |s|
  {
    seq(|s|, i requires 0 <= i < |s| => UpperChar(s[i]))
  }

  /** `s.startsWith(p)` */
  predicate StartsWith(s: string, p: string) {
    |p| <= |s| && s[..|p|] == p
  }

  /** `s.includes(p)` */
  predicate Contains(s: string, p: string)
    decreases |s|
  {
    StartsWith(s, p) || (s != [] && Contains(s[1..], p))
  }

  lemma {:induction false} ContainsNoLonger(s: string, p: string)
    requires Contains(s, p)
    ensures |p| <= |s|
    decreases |s|
  {
    if !StartsWith(s, p) {
      ContainsNoLonger(s[1..], p);
    }
  }

  /** A string of the same length as `p` contains `p` only by being `p`. */
  lemma ContainsSameLength(s: string, p: string)
    requires Contains(s, p) && |s| == |p|
    ensures s == p
  {
    if !StartsWith(s, p) {
      ContainsNoLonger(s[1..], p);
    }
    assert s[..|p|] == s;
  }

  // ---------------------------------------------------------------------
  // parseInt and parseFloat
  // ---------------------------------------------------------------------

  /** The value of a digit character in radix 36, or 36 when it is not a digit. */
  function DigitValue(c: char): (d: nat)
    ensures d <= 36
  {
    if '0' <= c <= '9' then (c as int) - ('0' as int)
    else if 'a' <= c <= 'z' then (c as int) - ('a' as int) + 10
    else if 'A' <= c <= 'Z' then (c as int) - ('A' as int) + 10
    else 36
  }

  /** The decimal digits are exactly the characters of value below ten. */
  lemma DecimalDigit(c: char)
    ensures DigitValue(c) < 10 <==> IsDigit(c)
  {
  }

  /** The length of the longest prefix of `s` made of radix-`radix` digits. */
  function DigitRun(s: string, radix: nat): (k: nat)
    ensures k <= |s|
    ensures forall i :: 0 <= i < k ==> DigitValue(s[i]) < radix
    ensures k < |s| ==> DigitValue(s[k]) >= radix
  {
    if s != [] && DigitValue(s[0]) < radix then 1 + DigitRun(s[1..], radix) else 0
  }

  /** The number a string of digits denotes in radix `radix`. */
  function DigitsValue(s: string, radix: nat): nat {
    if s == [] then 0
    else DigitsValue(s[..|s| - 1], radix) * radix + (if DigitValue(s[|s| - 1]) < radix then DigitValue(s[|s| - 1]) else 0)
  }

  /** A `0x` or `0X` prefix, which switches `parseInt` to radix 16. */
  predicate HexPrefix(u: string) {
    |u| >= 2 && u[0] == '0' && (u[1] == 'x' || u[1] == 'X')
  }

  /** The value of the longest leading run of digits; `None` when the run is empty. */
  function RunValue(body: string, radix: nat): Option<nat> {
    var k := DigitRun(body, radix);
    if k == 0 then None else Some(DigitsValue(body[..k], radix))
  }

  /** The unsigned part of `parseInt`: a `0x` prefix switching to radix 16, then the
      longest run of digits; `None` when the run is empty. */
  function ParseMagnitude(u: string): Option<nat> {
    if HexPrefix(u) then RunValue(u[2..], 16) else RunValue(u, 10)
  }

  /** `parseInt(s)` with no radix argument: leading whitespace, an optional sign, then the
      magnitude; NaN when there is no digit. */
  function ParseInt(s: string): Value {
    var t := TrimStart(s);
    var negative := t != [] && t[0] == '-';
    var u := if t != [] && (t[0] == '-' || t[0] == '+') then t[1..] else t;
    match ParseMagnitude(u)
    case None => NaN
    case Some(m) => var v: int := m; Num(if negative then -v else v)
  }

  /** `parseInt(v)`: the argument goes through `String` first. */
  function ParseIntValue(v: Value): Value {
    ParseInt(ToStr(v))
  }

  /** `parseFloat(s)` reduced to the integer part of the number it reads: leading whitespace,
      an optional sign, decimal digits, optionally `.` and more digits; NaN when there is no
      digit at all. */
  function ParseFloat(s: string): Value {
    var t := TrimStart(s);
    var negative := t != [] && t[0] == '-';
    var u := if t != [] && (t[0] == '-' || t[0] == '+') then t[1..] else t;
    var k := DigitRun(u, 10);
    var fraction := if k < |u| && u[k] == '.' then DigitRun(u[k + 1..], 10) else 0;
    if k == 0 && fraction == 0 then NaN
    else
      var m: int := DigitsValue(u[..k], 10);
      Num(if negative then -m else m)
  }

  /** The numeral denotes the number it was printed from. */
  lemma {:induction false} DecimalValue(n: nat)
    ensures DigitsValue(NatToDecimal(n), 10) == n
    decreases n
  {
    if n >= 10 {
      DecimalValue(n / 10);
      var s := NatToDecimal(n);
      assert s[..|s| - 1] == NatToDecimal(n / 10);
    }
  }

  lemma {:induction false} AllDigitsRun(s: string)
    requires forall i :: 0 <= i < |s| ==> IsDigit(s[i]) || DigitValue(s[i]) < 10
    ensures DigitRun(s, 10) == |s|
  {
    if s != [] {
      AllDigitsRun(s[1..]);
    }
  }

  lemma {:induction false} DecimalAllDigits(n: nat)
    ensures forall i :: 0 <= i < |NatToDecimal(n)| ==> IsDigit(NatToDecimal(n)[i])
    decreases n
  {
    if n >= 10 {
      DecimalAllDigits(n / 10);
    }
  }

  /** `parseInt` reads an optionally negated run of decimal digits back as its value. */
  lemma MagnitudeOfDigits(d: string)
    requires d != [] && forall i :: 0 <= i < |d| ==> IsDigit(d[i])
    ensures ParseMagnitude(d) == Some(DigitsValue(d, 10))
  {
    assert !HexPrefix(d) by {
      if |d| >= 2 {
        assert IsDigit(d[1]);
      }
    }
    AllDigitsRun(d);
    assert d[..|d|] == d;
  }

  lemma UnsignedMagnitude(d: string, m: nat)
    requires d != [] && IsDigit(d[0]) && ParseMagnitude(d) == Some(m)
    ensures ParseInt(d) == Num(m)
  {
  }

  lemma NegatedMagnitude(d: string, m: nat)
    requires ParseMagnitude(d) == Some(m)
    ensures ParseInt("-" + d) == Num(-(m as int))
  {
    assert ("-" + d)[0] == '-';
    assert ("-" + d)[1..] == d;
  }

  /** `parseInt(String(n)) === n` for every integer: the two conversions are inverse. */
  lemma ParseIntOfNumberToString(n: int)
    ensures ParseInt(NumberToString(n)) == Num(n)
  {
    var m: nat := if n < 0 then -n else n;
    DecimalAllDigits(m);
    DecimalValue(m);
    MagnitudeOfDigits(NatToDecimal(m));
    if n < 0 {
      NegatedMagnitude(NatToDecimal(m), m);
    } else {
      UnsignedMagnitude(NatToDecimal(m), m);
    }
  }

  /** `parseInt(x)` of a query-string field `x` whose destructuring default is the number `d`:
      the default survives the string round trip unchanged. */
  function QueryInt(x: Option<string>, d: int): (r: Value)
    ensures x.None? ==> r == Num(d)
  {
    if x.Some? then ParseInt(x.value)
    else
      ParseIntOfNumberToString(d);
      ParseInt(NumberToString(d))
  }

  // ---------------------------------------------------------------------
  // The `+` operator and object spread
  // ---------------------------------------------------------------------

  /** `Number(v)` for the primitives `+` converts numerically. */
  function ToNumber(v: Value): (r: Value)
    requires !v.Str? && !v.Arr? && !v.Obj?
    ensures r.Num? || r.NaN?
  {
    match v
    case Num(_) => v
    case Null => Num(0)
    case Bool(b) => Num(if b then 1 else 0)
    case _ => NaN
  }

  /** `a + b`: concatenation once either side is a string or an object (arrays and objects
      convert to their string form), numeric addition of the converted primitives otherwise. */
  function Plus(a: Value, b: Value): (r: Value)
    ensures a.Num? && b.Num? ==> r == Num(a.n + b.n)
    ensures a.Str? || b.Str? ==> r == Str(ToStr(a) + ToStr(b))
    ensures a.Undefined? && !b.Str? && !b.Arr? && !b.Obj? ==> r == NaN
  {
    if a.Str? || a.Arr? || a.Obj? || b.Str? || b.Arr? || b.Obj? then Str(ToStr(a) + ToStr(b))
    else
      var x := ToNumber(a);
      var y := ToNumber(b);
      if x.Num? && y.Num? then Num(x.n + y.n) else NaN
  }

  /** The own fields `{...v}` copies: an object's fields, nothing for `undefined` or `null`. */
  function Spread(v: Value): seq<(string, Value)> {
    if v.Obj? then v.fields else []
  }

  /** A key no entry has reads as `undefined`. */
  lemma {:induction false} GetMissing(fields: seq<(string, Value)>, k: string)
    requires forall i :: 0 <= i < |fields| ==> fields[i].0 != k
    ensures Get(fields, k) == Undefined
  {
    if fields != [] {
      GetMissing(fields[1..], k);
    }
  }

  /** The first entry with the key gives its value. */
  lemma {:induction false} GetFirst(fields: seq<(string, Value)>, i: nat, k: string)
    requires i < |fields| && fields[i].0 == k
    requires forall j :: 0 <= j < i ==> fields[j].0 != k
    ensures Get(fields, k) == fields[i].1
  {
    if i > 0 {
      GetFirst(fields[1..], i - 1, k);
    }
  }

  lemma HasKeyTail(fields: seq<(string, Value)>, k: string)
    requires fields != [] && fields[0].0 != k
    ensures HasKey(fields, k) <==> HasKey(fields[1..], k)
  {
    if HasKey(fields, k) {
      var i :| 0 <= i < |fields| && fields[i].0 == k;
      assert fields[1..][i - 1].0 == k;
    }
    if HasKey(fields[1..], k) {
      var i :| 0 <= i < |fields[1..]| && fields[1..][i].0 == k;
      assert fields[i + 1].0 == k;
    }
  }

  /** `{...fields, [k]: v}`: an existing key keeps its place and takes the new value, a new key
      is added last. */
  function Put(fields: seq<(string, Value)>, k: string, v: Value): (r: seq<(string, Value)>)
    ensures Get(r, k) == v
    ensures HasKey(fields, k) ==> Keys(r) == Keys(fields)
    ensures !HasKey(fields, k) ==> Keys(r) == Keys(fields) + [k]
    ensures forall j :: j != k ==> Get(r, j) == Get(fields, j)
  {
    if fields == [] then [(k, v)]
    else if fields[0].0 == k then
      assert ([(k, v)] + fields[1..])[1..] == fields[1..];
      [(k, v)] + fields[1..]
    else
      var rest := Put(fields[1..], k, v);
      HasKeyTail(fields, k);
      assert ([fields[0]] + rest)[1..] == rest;
      [fields[0]] + rest
  }

  /** A second write to another key leaves the first one readable. */
  lemma PutPut(f: seq<(string, Value)>, j: string, a: Value, k: string, b: Value)
    requires j != k
    ensures Get(Put(Put(f, j, a), k, b), j) == a
    ensures Get(Put(Put(f, j, a), k, b), k) == b
  {
    var g := Put(f, j, a);
    assert Get(Put(g, k, b), j) == Get(g, j);
  }
}
