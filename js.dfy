/** The parts of the JavaScript host that both drivers lean on: the values a parsed
    JSON document can hold (plus `undefined`), ToBoolean, property reads and
    writes, String(v), Array.prototype.join, JSON.stringify, String.prototype.trim,
    String.prototype.indexOf as a containment test, and whether Number(s) is NaN
    for a string s (the grammar of section 7.1.4.1.1 of ECMA-262, StringToNumber).

    Numbers are abstract: a number is kept as the text Number.prototype.toString
    gives for it, so `Num("0")` is zero and `Num("NaN")` is NaN. */
module Js {

  datatype Option<T> = None | Some(value: T)

  /** A JavaScript value as it appears in a parsed JSON document, plus `undefined`. */
  datatype Json =
    | Undefined
    | Null
    | Bool(b: bool)
    | Num(text: string)
    | Str(s: string)
    | Arr(items: seq<Json>)
    | Obj(fields: seq<Field>)

  /** An own enumerable property of an object; an object's fields are kept in
      for-in enumeration order. */
  datatype Field = Field(key: string, value: Json)

  /** Reading a property of these throws a TypeError. */
  predicate Nullish(v: Json) {
    v.Undefined? || v.Null?
  }

  /** ToBoolean: `undefined`, `null`, `false`, `0`, `NaN` and `''` are falsy. */
  predicate Truthy(v: Json) {
    match v
    case Undefined => false
    case Null => false
    case Bool(b) => b
    case Num(t) => t != "0" && t != "NaN"
    case Str(s) => s != ""
    case Arr(_) => true
    case Obj(_) => true
  }

  /** The value of the first field named `key`, or `undefined`. */
  function FieldValue(fields: seq<Field>, key: string): (r: Json)
    ensures r != Undefined ==> exists i :: 0 <= i < |fields| && fields[i].key == key && fields[i].value == r
  {
    if fields == [] then Undefined
    else if fields[0].key == key then fields[0].value
    else FieldValue(fields[1..], key)
  }

  /** The property read `v[key]` on a value that is not `null`/`undefined`.
      Only objects are given properties here (array indices, `length` and the
      prototype chain of primitives are not modelled). */
  function Get(v: Json, key: string): (r: Json)
    requires !Nullish(v)
    ensures !v.Obj? ==> r == Undefined
  {
    if v.Obj? then FieldValue(v.fields, key) else Undefined
  }

  /** The assignment `v[key] = x` in non-strict code: an existing field keeps its
      place, a new one goes last, and a write to a primitive is silently lost. */
  function Put(v: Json, key: string, x: Json): (r: Json)
    requires !Nullish(v)
    ensures v.Obj? ==> r.Obj? && Get(r, key) == x
    ensures !v.Obj? ==> r == v
  {
    if v.Obj? then Obj(PutField(v.fields, key, x)) else v
  }

  function PutField(fields: seq<Field>, key: string, x: Json): (r: seq<Field>)
    ensures FieldValue(r, key) == x
  {
    if fields == [] then [Field(key, x)]
    else if fields[0].key == key then [Field(key, x)] + fields[1..]
    else [fields[0]] + PutField(fields[1..], key, x)
  }

  /** The own fields a for-in loop visits (for-in over arrays and strings is not
      modelled; over anything else it visits nothing). */
  function Fields(v: Json): seq<Field> {
    if v.Obj? then v.fields else []
  }

  function Keys(fields: seq<Field>): (r: seq<string>)
    ensures |r| == |fields| && forall i :: 0 <= i < |fields| ==> r[i] == fields[i].key
  {
    if fields == [] then [] else [fields[0].key] + Keys(fields[1..])
  }

  /** String(v), which is also what `+` does when it meets a string. */
  function ToText(v: Json): string
    decreases v, 0
  {
    match v
    case Undefined => "undefined"
    case Null => "null"
    case Bool(b) => if b then "true" else "false"
    case Num(t) => t
    case Str(s) => s
    case Arr(items) => JoinItems(items)
    case Obj(_) => "[object Object]"
  }

  /** Array.prototype.join(",") over array elements: `null` and `undefined` render empty. */
  function JoinItems(items: seq<Json>): string
    decreases items, 0
  {
    if items == [] then ""
    else
      var first := JoinText(items[0]);
      if |items| == 1 then first else first + "," + JoinItems(items[1..])
  }

  /** How Array.prototype.join renders one element. */
  function JoinText(v: Json): string
    decreases v, 1
  {
    if Nullish(v) then "" else ToText(v)
  }

  /** Array.prototype.join(sep) over an array of strings. */
  function Join(cells: seq<string>, sep: string): string {
    if cells == [] then ""
    else if |cells| == 1 then cells[0]
    else cells[0] + sep + Join(cells[1..], sep)
  }

  /** JSON.stringify. `undefined` is rendered as inside an array (`null`);
      object fields whose value is `undefined` are omitted. */
  function Stringify(v: Json): string
    decreases v, 0
  {
    match v
    case Undefined => "null"
    case Null => "null"
    case Bool(b) => if b then "true" else "false"
    case Num(t) => if t == "NaN" || t == "Infinity" || t == "-Infinity" then "null" else t
    case Str(s) => Quote(s)
    case Arr(items) => "[" + StringifyItems(items) + "]"
    case Obj(fields) => "{" + StringifyFields(fields) + "}"
  }

  function StringifyItems(items: seq<Json>): string
    decreases items, 0
  {
    if items == [] then ""
    else if |items| == 1 then Stringify(items[0])
    else Stringify(items[0]) + "," + StringifyItems(items[1..])
  }

  function StringifyFields(fields: seq<Field>): string
    decreases fields, 0
  {
    if fields == [] then ""
    else if fields[0].value.Undefined? then StringifyFields(fields[1..])
    else
      var rest := StringifyFields(fields[1..]);
      Member(fields[0].key, fields[0].value) + (if rest == "" then "" else "," + rest)
  }

  /** One object member: the quoted key, a colon and the value. */
  function Member(key: string, v: Json): string
    decreases v, 1
  {
    Quote(key) + ":" + Stringify(v)
  }

  /** QuoteJSONString: the string in double quotes with `"`, `\` and control
      characters escaped. */
  function Quote(s: string): string {
    "\"" + QuoteChars(s) + "\""
  }

  function QuoteChars(s: string): string {
    if s == [] then "" else QuoteChar(s[0]) + QuoteChars(s[1..])
  }

  function QuoteChar(c: char): string {
    if c == '"' then "\\\""
    else if c == '\\' then "\\\\"
    else if c as int == 8 then "\\b"
    else if c == '\t' then "\\t"
    else if c == '\n' then "\\n"
    else if c as int == 12 then "\\f"
    else if c == '\r' then "\\r"
    else if (c as int) < 0x20 then "\\u00" + [HexDigit((c as int) / 16), HexDigit((c as int) % 16)]
    else [c]
  }

  function HexDigit(d: nat): char
    requires d < 16
  {
    "0123456789abcdef"[d]
  }

  /** The decimal text of a natural number, as Number.prototype.toString writes it. */
  function Decimal(n: nat): (r: string)
    ensures |r| >= 1
  {
    if n < 10 then ["0123456789"[n]] else Decimal(n / 10) + ["0123456789"[n % 10]]
  }

  /** WhiteSpace and LineTerminator code points: what String.prototype.trim strips. */
  predicate IsWhite(c: char) {
    var n := c as int;
    n == 0x09 || n == 0x0A || n == 0x0B || n == 0x0C || n == 0x0D || n == 0x20 || n == 0xA0
    || n == 0x1680 || (0x2000 <= n <= 0x200A) || n == 0x2028 || n == 0x2029 || n == 0x202F
    || n == 0x205F || n == 0x3000 || n == 0xFEFF
  }

  predicate AllWhite(s: string) {
    forall i :: 0 <= i < |s| ==> IsWhite(s[i])
  }

  function TrimStart(s: string): (r: string)
    ensures |r| <= |s|
  {
    if s != [] && IsWhite(s[0]) then TrimStart(s[1..]) else s
  }

  function TrimEnd(s: string): (r: string)
    ensures |r| <= |s|
  {
    if s != [] && IsWhite(s[|s| - 1]) then TrimEnd(s[..|s| - 1]) else s
  }

  /** String.prototype.trim. */
  function Trim(s: string): (r: string) {
    TrimEnd(TrimStart(s))
  }

  /** `s.indexOf(sub) !== -1`; an empty `sub` is found at 0 in every string. */
  predicate Contains(s: string, sub: string)
    decreases |s|
  {
    sub <= s || (s != [] && Contains(s[1..], sub))
  }

  predicate IsDigit(c: char) { '0' <= c <= '9' }

  predicate IsSign(c: char) { c == '+' || c == '-' }

  predicate AllDigits(s: string) {
    forall i :: 0 <= i < |s| ==> IsDigit(s[i])
  }

  predicate AllIn(s: string, alphabet: string) {
    forall i :: 0 <= i < |s| ==> s[i] in alphabet
  }

  /** The index of the first `c` in `s`, or |s| when there is none. */
  function IndexOf(s: string, c: char): (i: nat)
    ensures i <= |s|
    ensures forall j :: 0 <= j < i ==> s[j] != c
    ensures i < |s| ==> s[i] == c
  {
    if s == [] then 0 else if s[0] == c then 0 else 1 + IndexOf(s[1..], c)
  }

  predicate IsExponentMark(c: char) { c == 'e' || c == 'E' }

  /** The index of the first exponent letter in `s`, or |s| when there is none. */
  function ExponentAt(s: string): (i: nat)
    ensures i <= |s|
    ensures forall j :: 0 <= j < i ==> !IsExponentMark(s[j])
    ensures i < |s| ==> IsExponentMark(s[i])
  {
    if s == [] then 0 else if IsExponentMark(s[0]) then 0 else 1 + ExponentAt(s[1..])
  }

  /** NonDecimalIntegerLiteral: 0b…, 0o…, 0x… with at least one digit. */
  predicate NonDecimalLiteral(t: string) {
    |t| > 2 && t[0] == '0'
    && ((t[1] in "bB" && AllIn(t[2..], "01"))
        || (t[1] in "oO" && AllIn(t[2..], "01234567"))
        || (t[1] in "xX" && AllIn(t[2..], "0123456789abcdefABCDEF")))
  }

  /** DecimalDigits [. DecimalDigits?] | . DecimalDigits — at least one digit, at most one dot. */
  predicate Mantissa(m: string) {
    var d := IndexOf(m, '.');
    if d == |m| then |m| > 0 && AllDigits(m)
    else |m| > 1 && AllDigits(m[..d]) && AllDigits(m[d + 1..])
  }

  /** SignedInteger after the exponent letter. */
  predicate SignedInteger(e: string) {
    var u := if |e| > 0 && IsSign(e[0]) then e[1..] else e;
    |u| > 0 && AllDigits(u)
  }

  /** StrUnsignedDecimalLiteral: `Infinity`, or a mantissa with an optional exponent. */
  predicate UnsignedDecimalLiteral(u: string) {
    u == "Infinity"
    || (var e := ExponentAt(u);
        Mantissa(u[..e]) && (e == |u| || SignedInteger(u[e + 1..])))
  }

  /** StrDecimalLiteral: an optional sign before an unsigned decimal literal. */
  predicate DecimalLiteral(t: string) {
    var u := if |t| > 0 && IsSign(t[0]) then t[1..] else t;
    UnsignedDecimalLiteral(u)
  }

  /** Number(s) is not NaN: after trimming, `s` is empty or a StrNumericLiteral. */
  predicate NumericString(s: string) {
    var t := Trim(s);
    t == "" || NonDecimalLiteral(t) || DecimalLiteral(t)
  }

  /** The global isNaN(v), which first converts `v` with ToNumber. */
  predicate IsNaN(v: Json) {
    match v
    case Undefined => true
    case Null => false
    case Bool(_) => false
    case Num(t) => t == "NaN"
    case Str(s) => !NumericString(s)
    case Arr(_) => !NumericString(ToText(v))
    case Obj(_) => !NumericString(ToText(v))
  }

  // Facts used by the drivers' proofs.

  lemma {:induction false} ContainsAt(s: string, sub: string, i: nat)
    requires i + |sub| <= |s| && s[i..i + |sub|] == sub
    ensures Contains(s, sub)
    decreases i
  {
    if i == 0 {
      assert sub == s[..|sub|];
    } else {
      assert s[1..][i - 1..i - 1 + |sub|] == s[i..i + |sub|];
      ContainsAt(s[1..], sub, i - 1);
    }
  }

  lemma {:induction false} ContainsChar(s: string, c: char)
    ensures Contains(s, [c]) <==> c in s
    decreases |s|
  {
    if s != [] {
      ContainsChar(s[1..], c);
      assert s == [s[0]] + s[1..];
    }
  }

  lemma TrimFixed(s: string)
    requires s != [] ==> !IsWhite(s[0]) && !IsWhite(s[|s| - 1])
    ensures Trim(s) == s
  {
  }

  /** TrimStart drops the longest all-white prefix. */
  lemma {:induction false} TrimStartSpec(s: string)
    ensures var r := TrimStart(s);
      && r == s[|s| - |r|..] && AllWhite(s[..|s| - |r|])
      && (r != [] ==> !IsWhite(r[0]))
    decreases |s|
  {
    if s != [] && IsWhite(s[0]) {
      TrimStartSpec(s[1..]);
      var r := TrimStart(s);
      assert s[..|s| - |r|] == [s[0]] + s[1..][..|s| - 1 - |r|];
    }
  }

  /** TrimEnd drops the longest all-white suffix. */
  lemma {:induction false} TrimEndSpec(s: string)
    ensures var r := TrimEnd(s);
      && r == s[..|r|] && AllWhite(s[|r|..])
      && (r != [] ==> !IsWhite(r[|r| - 1]))
    decreases |s|
  {
    if s != [] && IsWhite(s[|s| - 1]) {
      TrimEndSpec(s[..|s| - 1]);
      var r := TrimEnd(s);
      assert s[|r|..] == s[..|s| - 1][|r|..] + [s[|s| - 1]];
    }
  }

  /** String.prototype.trim keeps the slice between an all-white prefix and an
      all-white suffix, and that slice neither starts nor ends with white space. */
  lemma TrimSpec(s: string)
    ensures var r := Trim(s); var k := |s| - |TrimStart(s)|;
      && k + |r| <= |s| && r == s[k..k + |r|]
      && AllWhite(s[..k]) && AllWhite(s[k + |r|..])
      && (r != [] ==> !IsWhite(r[0]) && !IsWhite(r[|r| - 1]))
  {
    var a := TrimStart(s);
    TrimStartSpec(s);
    TrimEndSpec(a);
    var r := TrimEnd(a);
    assert Trim(s) == r;
    var k := |s| - |a|;
    SuffixSlices(s, k, |r|);
    if r != [] {
      assert r[0] == a[0] && !IsWhite(r[|r| - 1]);
    }
  }

  /** Slicing a suffix is slicing the whole. */
  lemma SuffixSlices(s: string, k: nat, n: nat)
    requires k + n <= |s|
    ensures s[k..][..n] == s[k..k + n] && s[k..][n..] == s[k + n..]
  {
  }

  lemma TrimEmptyIsWhite(s: string)
    ensures Trim(s) == "" <==> AllWhite(s)
  {
    TrimSpec(s);
    var k := |s| - |TrimStart(s)|;
    if Trim(s) == "" {
      assert s == s[..k] + s[k..];
    } else {
      assert s[k] == Trim(s)[0];
    }
  }

  /** A string whose trimmed text is not `Infinity` and starts with neither a
      digit, a sign nor a dot is not numeric. */
  lemma NotNumericLeadingLetter(s: string)
    requires var t := Trim(s); t != [] && !IsDigit(t[0]) && !IsSign(t[0]) && t[0] != '.' && t != "Infinity"
    ensures !NumericString(s)
  {
    var t := Trim(s);
    var e := ExponentAt(t);
    var m := t[..e];
    if e > 0 {
      assert m[0] == t[0];
      var d := IndexOf(m, '.');
      assert d > 0 && m[..d][0] == t[0];
    }
  }

  /** Writing one property leaves every other property as it was. */
  lemma {:induction false} PutFieldOther(fields: seq<Field>, key: string, x: Json, other: string)
    requires other != key
    ensures FieldValue(PutField(fields, key, x), other) == FieldValue(fields, other)
    decreases |fields|
  {
    if fields != [] && fields[0].key != key {
      PutFieldOther(fields[1..], key, x, other);
    }
  }

  lemma PutGetOther(v: Json, key: string, x: Json, other: string)
    requires !Nullish(v) && other != key
    ensures Get(Put(v, key, x), other) == Get(v, other)
  {
    if v.Obj? {
      PutFieldOther(v.fields, key, x, other);
    }
  }

  /** The value of a property is that of its first field of that name. */
  lemma {:induction false} FieldValueAt(fields: seq<Field>, key: string, i: nat)
    requires i < |fields| && fields[i].key == key
    requires forall j :: 0 <= j < i ==> fields[j].key != key
    ensures FieldValue(fields, key) == fields[i].value
    decreases i
  {
    if i > 0 {
      FieldValueAt(fields[1..], key, i - 1);
    }
  }

  /** A property with no field of that name reads as `undefined`. */
  lemma {:induction false} FieldValueAbsent(fields: seq<Field>, key: string)
    requires forall j :: 0 <= j < |fields| ==> fields[j].key != key
    ensures FieldValue(fields, key) == Undefined
    decreases |fields|
  {
    if fields != [] {
      FieldValueAbsent(fields[1..], key);
    }
  }

  /** The members of one property that is not `undefined`. */
  lemma StringifyFieldsSingle(k: string, v: Json)
    requires v != Undefined
    ensures StringifyFields([Field(k, v)]) == Member(k, v)
  {
    assert [Field(k, v)][1..] == [];
  }

  /** An object of one property that is not `undefined`. */
  lemma StringifyOneField(k: string, v: Json)
    requires v != Undefined
    ensures Stringify(Obj([Field(k, v)])) == "{" + Member(k, v) + "}"
  {
    StringifyFieldsSingle(k, v);
  }

  /** The members of two properties, neither `undefined`. */
  lemma StringifyFieldsPair(k1: string, v1: Json, k2: string, v2: Json)
    requires v1 != Undefined && v2 != Undefined
    ensures StringifyFields([Field(k1, v1), Field(k2, v2)]) == Member(k1, v1) + ("," + Member(k2, v2))
  {
    assert [Field(k1, v1), Field(k2, v2)][1..] == [Field(k2, v2)];
    StringifyFieldsSingle(k2, v2);
    assert Member(k2, v2) != "" by { assert |Quote(k2)| >= 2; }
  }

  /** An object of two properties, neither `undefined`. */
  lemma StringifyTwoFields(k1: string, v1: Json, k2: string, v2: Json)
    requires v1 != Undefined && v2 != Undefined
    ensures Stringify(Obj([Field(k1, v1), Field(k2, v2)])) == "{" + Member(k1, v1) + "," + Member(k2, v2) + "}"
  {
    StringifyFieldsPair(k1, v1, k2, v2);
    var m1, m2 := Member(k1, v1), Member(k2, v2);
    assert "{" + (m1 + ("," + m2)) + "}" == "{" + m1 + "," + m2 + "}";
  }

  /** An array or an object is written between its brackets. */
  lemma StringifyBracketed(v: Json)
    requires v.Arr? || v.Obj?
    ensures var s := Stringify(v);
      && |s| >= 2
      && s[0] == (if v.Obj? then '{' else '[')
      && s[|s| - 1] == (if v.Obj? then '}' else ']')
  {
  }

  /** Properties that are `undefined` are left out. */
  lemma StringifySkipsUndefined(k: string, rest: seq<Field>)
    ensures Stringify(Obj([Field(k, Undefined)] + rest)) == Stringify(Obj(rest))
  {
    assert ([Field(k, Undefined)] + rest)[1..] == rest;
  }
}
