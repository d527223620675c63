/** The CSV target driver (drivers/csv.driver.js): value escaping, the column
    schema built from metadata, the header line, and one row per document.

    The module-level `propertyMap` and `indexCounter` of the driver are the
    fields of `CsvTarget`; the output file is the pair (fileExists, fileText). */
module CsvDriver {
  import opened Js

  const DriverId := "csv"
  const ImportUnsupported := "CSV driver doesn't support import operations"
  const SourceRoleError := "The CSV driver doesn't support import operations."
  const EmptySeparatorError := "Seperator is empty, resulting file will not be a CSV"

  /** The target options the driver reads (the output path is left implicit). */
  datatype CsvOptions = CsvOptions(
    noheader: bool,
    separator: string,
    quoteEverything: bool,
    trimData: bool,
    unixQuotes: bool,
    append: bool)

  /** The presets the driver declares for its options. */
  const Defaults := CsvOptions(false, ",", false, false, false, false)

  // ---------------------------------------------------------------------------
  // Options and the unsupported source role

  /** `verifyOptions`: only acting as a source is an error. The check meant to
      reject an empty separator compares the method `separator.trim` itself
      with `''`, which never holds, so it adds nothing. */
  function VerifyOptions(sourceDriver: string, targetDriver: string): (errors: seq<string>)
    ensures errors != [] <==> sourceDriver == DriverId
    ensures errors != [] ==> errors == [SourceRoleError]
  {
    var trimMemberIsEmptyString := false;
    (if sourceDriver == DriverId then [SourceRoleError] else [])
    + (if targetDriver == DriverId && trimMemberIsEmptyString then [EmptySeparatorError] else [])
  }

  datatype SourceOperation = GetSourceStats | GetMeta | GetData

  datatype CallOutcome = Returned | Threw(message: string)

  /** `getSourceStats`, `getMeta` and `getData` throw without calling back. */
  function CallSourceOperation(op: SourceOperation): (r: CallOutcome)
    ensures r.Threw? && r.message == ImportUnsupported
  {
    match op
    case GetSourceStats => Threw(ImportUnsupported)
    case GetMeta => Threw(ImportUnsupported)
    case GetData => Threw(ImportUnsupported)
  }

  // ---------------------------------------------------------------------------
  // escape

  /** String.prototype.replace with a string pattern `"`: only the first
      occurrence is rewritten. */
  function ReplaceFirstQuote(t: string, rep: string): string {
    if t == [] then []
    else if t[0] == '"' then rep + t[1..]
    else [t[0]] + ReplaceFirstQuote(t[1..], rep)
  }

  /** The rewrite of a `"`: backslash-quote under `unixQuotes`, doubled otherwise. */
  function QuoteEscape(o: CsvOptions): string {
    if o.unixQuotes then "\\\"" else "\"\""
  }

  /** The quoting test, on the value after stringifying and trimming. */
  predicate NeedsQuotes(o: CsvOptions, t: string) {
    o.quoteEverything || Contains(t, "\n") || Contains(t, "\"") || Contains(t, o.separator)
  }

  /** The text a non-numeric, truthy value is turned into before the quoting test. */
  function Prepared(o: CsvOptions, v: Json): string {
    var s := if v.Arr? || v.Obj? then Stringify(v) else ToText(v);
    if o.trimData then Trim(s) else s
  }

  /** `escape(env, data)`, as the text it contributes to the header or a row
      (its result is only ever concatenated or joined): falsy values give '',
      values isNaN accepts pass through, the rest is stringified (objects and
      arrays), trimmed (trimData), and quoted with its first `"` rewritten. */
  function Escape(o: CsvOptions, v: Json): string {
    if !Truthy(v) then ""
    else if !IsNaN(v) then ToText(v)
    else
      var t := Prepared(o, v);
      if NeedsQuotes(o, t) then "\"" + ReplaceFirstQuote(t, QuoteEscape(o)) + "\"" else t
  }

  /** A cell that starts and ends with a double quote. */
  predicate QuotedCell(r: string) {
    |r| >= 2 && r[0] == '"' && r[|r| - 1] == '"'
  }

  /** A text without a `"` is left as it is by the rewrite. */
  lemma {:induction false} ReplaceFirstQuoteNone(t: string, rep: string)
    requires forall i :: 0 <= i < |t| ==> t[i] != '"'
    ensures ReplaceFirstQuote(t, rep) == t
    decreases |t|
  {
    if t != [] {
      ReplaceFirstQuoteNone(t[1..], rep);
      assert t == [t[0]] + t[1..];
    }
  }

  /** The first `"`, at position i, is replaced and nothing else changes. */
  lemma {:induction false} ReplaceFirstQuoteAt(t: string, rep: string, i: nat)
    requires i < |t| && t[i] == '"' && forall j :: 0 <= j < i ==> t[j] != '"'
    ensures ReplaceFirstQuote(t, rep) == t[..i] + (rep + t[i + 1..])
    decreases i
  {
    if i > 0 {
      ReplaceFirstQuoteAt(t[1..], rep, i - 1);
      assert t[..i] == [t[0]] + t[1..][..i - 1];
      assert t[1..][i..] == t[i + 1..];
    }
  }

  /** The rewrite in terms of the position of the first `"`. */
  lemma ReplaceFirstQuoteSpec(t: string, rep: string)
    ensures var i := IndexOf(t, '"');
      ReplaceFirstQuote(t, rep) == if i == |t| then t else t[..i] + (rep + t[i + 1..])
  {
    var i := IndexOf(t, '"');
    if i == |t| {
      ReplaceFirstQuoteNone(t, rep);
    } else {
      ReplaceFirstQuoteAt(t, rep, i);
    }
  }

  /** Falsy values (undefined, null, false, 0, NaN, '') escape to the empty cell. */
  lemma EscapeFalsy(o: CsvOptions, v: Json)
    requires !Truthy(v)
    ensures Escape(o, v) == ""
  {
  }

  /** A numeric-looking string is returned untouched: never trimmed, never
      quoted, whatever the options. */
  lemma EscapeNumericUnchanged(o: CsvOptions, s: string)
    requires s != "" && NumericString(s)
    ensures Escape(o, Str(s)) == s
  {
  }

  /** Any truthy value that isNaN accepts as a number (a number, a numeric
      string, a whitespace-only string, an array whose text is numeric) is
      returned as it is: never stringified, trimmed or quoted. */
  lemma EscapeNotNaN(o: CsvOptions, v: Json)
    requires Truthy(v) && !IsNaN(v)
    ensures Escape(o, v) == ToText(v)
  {
  }

  /** An object, and an array that isNaN rejects, is JSON-stringified before
      the remaining rules: it escapes as the string JSON.stringify gives. */
  lemma EscapeStringified(o: CsvOptions, v: Json)
    requires v.Obj? || (v.Arr? && IsNaN(v))
    ensures Escape(o, v) == Escape(o, Str(Stringify(v)))
  {
    var s := Stringify(v);
    StringifyBracketed(v);
    TrimFixed(s);
    assert s != "Infinity" by { assert "Infinity"[0] == 'I'; }
    NotNumericLeadingLetter(s);
    if v.Obj? {
      var t := "[object Object]";
      TrimFixed(t);
      assert t != "Infinity" by { assert "Infinity"[0] == 'I'; }
      NotNumericLeadingLetter(t);
    }
    assert Prepared(o, v) == Prepared(o, Str(s));
  }

  /** With trimming and forced quoting off, a string that holds no newline, no
      `"` and no separator escapes to itself. */
  lemma EscapeIdentity(o: CsvOptions, s: string)
    requires !o.trimData && !o.quoteEverything
    requires '\n' !in s && '"' !in s && !Contains(s, o.separator)
    ensures Escape(o, Str(s)) == s
  {
    if s != "" && !NumericString(s) {
      assert Prepared(o, Str(s)) == s;
      assert !NeedsQuotes(o, s) by {
        ContainsChar(s, '\n');
        ContainsChar(s, '"');
      }
      EscapeUnquoted(o, s);
    }
  }

  /** For a non-numeric string the cell is wrapped in quotes exactly when the
      quoting test holds of the prepared text. */
  lemma EscapeWrappedIff(o: CsvOptions, s: string)
    requires s != "" && !NumericString(s)
    ensures QuotedCell(Escape(o, Str(s))) <==> NeedsQuotes(o, Prepared(o, Str(s)))
  {
    var t := Prepared(o, Str(s));
    assert t != "" by {
      if o.trimData { TrimEmptyIsWhite(s); assert Trim(s) != ""; }
    }
    if !NeedsQuotes(o, t) {
      ContainsChar(t, '"');
      assert Escape(o, Str(s)) == t;
    }
  }

  /** Inside the quotes only the first `"` is rewritten; any later one is kept
      as it is. */
  lemma EscapeRewritesFirstQuoteOnly(o: CsvOptions, s: string)
    requires s != "" && !NumericString(s)
    requires '"' in Prepared(o, Str(s))
    ensures var t := Prepared(o, Str(s)); var i := IndexOf(t, '"');
      && i < |t|
      && Escape(o, Str(s)) == "\"" + ReplaceFirstQuote(t, QuoteEscape(o)) + "\""
      && ReplaceFirstQuote(t, QuoteEscape(o)) == t[..i] + (QuoteEscape(o) + t[i + 1..])
  {
    var t := Prepared(o, Str(s));
    QuoteFound(o, t);
    EscapeQuoted(o, s);
    ReplaceFirstQuoteSpec(t, QuoteEscape(o));
  }

  /** A value holding a `"` is quoted, and its first `"` is at IndexOf. */
  lemma QuoteFound(o: CsvOptions, t: string)
    requires '"' in t
    ensures IndexOf(t, '"') < |t| && NeedsQuotes(o, t)
  {
    ContainsChar(t, '"');
  }

  /** A value equal to a separator that is neither numeric-looking nor changed
      by trimming is always quoted, whether or not quoteEverything is set. */
  lemma SeparatorValueQuoted(o: CsvOptions)
    requires o.separator != "" && !NumericString(o.separator)
    requires o.trimData ==> Trim(o.separator) == o.separator
    ensures QuotedCell(Escape(o, Str(o.separator)))
  {
    ContainsAt(o.separator, o.separator, 0);
    EscapeWrappedIff(o, o.separator);
  }

  /** A tab separator is whitespace, which isNaN reads as 0: a tab value is not
      quoted even though it equals the separator. */
  lemma TabSeparatorValueNotQuoted(o: CsvOptions)
    requires o.separator == "\t"
    ensures Escape(o, Str("\t")) == "\t"
  {
    assert Trim("\t") == "";
  }

  /** An empty separator is found in every string by indexOf, so every
      non-numeric value is quoted. */
  lemma EmptySeparatorQuotesEverything(o: CsvOptions, s: string)
    requires o.separator == "" && s != "" && !NumericString(s)
    ensures QuotedCell(Escape(o, Str(s)))
  {
    EscapeWrappedIff(o, s);
  }

  /** The quoted form of a non-numeric string that the quoting test selects. */
  lemma EscapeQuoted(o: CsvOptions, s: string)
    requires s != "" && !NumericString(s) && NeedsQuotes(o, Prepared(o, Str(s)))
    ensures Escape(o, Str(s)) == "\"" + ReplaceFirstQuote(Prepared(o, Str(s)), QuoteEscape(o)) + "\""
  {
  }

  /** The plain form of a non-numeric string that the quoting test passes over. */
  lemma EscapeUnquoted(o: CsvOptions, s: string)
    requires s != "" && !NumericString(s) && !NeedsQuotes(o, Prepared(o, Str(s)))
    ensures Escape(o, Str(s)) == Prepared(o, Str(s))
  {
  }

  predicate IsLetter(c: char) { 'a' <= c <= 'z' || 'A' <= c <= 'Z' }

  lemma QuotedWord(a: char, b: char, c: char)
    requires IsLetter(a) && IsLetter(b) && IsLetter(c)
    ensures var s := [a, '"', b, '"', c];
      !NumericString(s) && Contains(s, "\"") && ReplaceFirstQuote(s, "\"\"") == [a, '"', '"', b, '"', c]
  {
    var s := [a, '"', b, '"', c];
    TrimFixed(s);
    NotNumericLeadingLetter(s);
    ContainsAt(s, "\"", 1);
    assert s[1..][1..] == [b, '"', c];
  }

  /** `a"b"c` with the default options: the first quote is doubled, the second
      is left as it is. */
  lemma OnlyFirstQuoteDoubled(a: char, b: char, c: char)
    requires IsLetter(a) && IsLetter(b) && IsLetter(c)
    ensures Escape(Defaults, Str([a, '"', b, '"', c])) == "\"" + [a, '"', '"', b, '"', c] + "\""
  {
    var s := [a, '"', b, '"', c];
    QuotedWord(a, b, c);
    assert Prepared(Defaults, Str(s)) == s;
    EscapeQuoted(Defaults, s);
  }

  /** A two-digit number, as a string or as a number, passes through unquoted
      under any options, quoteEverything included. */
  lemma TwoDigitsUnquoted(o: CsvOptions, d: char, e: char)
    requires IsDigit(d) && IsDigit(e)
    ensures Escape(o, Str([d, e])) == [d, e]
    ensures Escape(o, Num([d, e])) == [d, e]
  {
    var s := [d, e];
    TrimFixed(s);
    assert ExponentAt(s) == 2;
    assert IndexOf(s, '.') == 2;
    assert Mantissa(s);
    assert DecimalLiteral(s);
  }

  // ---------------------------------------------------------------------------
  // The column schema

  /** The names every plain object inherits from Object.prototype: for these
      `propertyMap[p]` is a function (or the prototype), which is truthy. */
  const ObjectPrototypeNames: set<string> := {
    "constructor", "hasOwnProperty", "isPrototypeOf", "propertyIsEnumerable",
    "toLocaleString", "toString", "valueOf", "__defineGetter__", "__defineSetter__",
    "__lookupGetter__", "__lookupSetter__", "__proto__"
  }

  /** `!propertyMap[property]`: no own column, or own column 0, and not inherited. */
  predicate Unseen(m: map<string, nat>, p: string) {
    if p in m then m[p] == 0 else p !in ObjectPrototypeNames
  }

  /** What the column assignment of one `putMeta` leaves: the property map, the
      counter, and the names appended to the header, in order. */
  datatype Assignment = Assignment(propertyMap: map<string, nat>, counter: nat, added: seq<string>)

  /** The assignment loop of `putMeta` over a stream of property names. */
  function Assign(m: map<string, nat>, counter: nat, props: seq<string>): Assignment
    decreases |props|
  {
    if props == [] then Assignment(m, counter, [])
    else
      var a := Assign(m, counter, props[..|props| - 1]);
      var p := props[|props| - 1];
      if Unseen(a.propertyMap, p)
      then Assignment(a.propertyMap[p := a.counter], a.counter + 1, a.added + [p])
      else a
  }

  /** The schema invariant: `names` lists the columns handed out so far, in
      order, the counter is the next column, every mapped property sits at the
      column `names` gives it, and no inherited name is ever mapped. */
  ghost predicate Consistent(m: map<string, nat>, counter: nat, names: seq<string>) {
    && counter == |names|
    && (forall p :: p in m ==> m[p] < counter && names[m[p]] == p)
    && (forall p :: p in m ==> p !in ObjectPrototypeNames)
  }

  /** Each newly seen property gets the current counter, which then increases:
      the columns handed out are counter, counter + 1, … in the order of `added`,
      and the schema invariant is kept. */
  lemma {:induction false} AssignKeepsConsistent(m: map<string, nat>, counter: nat, names: seq<string>, props: seq<string>)
    requires Consistent(m, counter, names)
    ensures var a := Assign(m, counter, props);
      a.counter == counter + |a.added| && Consistent(a.propertyMap, a.counter, names + a.added)
    decreases |props|
  {
    if props != [] {
      AssignKeepsConsistent(m, counter, names, props[..|props| - 1]);
    }
  }

  /** A property that already has a column other than 0 keeps it. */
  lemma {:induction false} AssignKeepsNonZeroColumns(m: map<string, nat>, counter: nat, props: seq<string>, p: string)
    requires p in m && m[p] != 0
    ensures var a := Assign(m, counter, props); p in a.propertyMap && a.propertyMap[p] == m[p]
    decreases |props|
  {
    if props != [] {
      AssignKeepsNonZeroColumns(m, counter, props[..|props| - 1], p);
    }
  }

  /** Every property met gets a column unless it is an inherited name; an
      inherited name never gets one. */
  lemma {:induction false} AssignCovers(m: map<string, nat>, counter: nat, props: seq<string>)
    ensures var a := Assign(m, counter, props);
      && (forall p :: p in props && p !in ObjectPrototypeNames ==> p in a.propertyMap)
      && (forall p :: p in ObjectPrototypeNames && p !in m ==> p !in a.propertyMap)
    decreases |props|
  {
    if props != [] {
      var init := props[..|props| - 1];
      AssignCovers(m, counter, init);
      assert props == init + [props[|props| - 1]];
    }
  }

  /** Column 0 reads as unseen: a property met twice in a fresh schema is
      moved from column 0 to column 1 and named twice in the header. */
  lemma ColumnZeroReassigned()
    ensures Assign(map[], 0, ["name", "name"]) == Assignment(map["name" := 1], 2, ["name", "name"])
  {
    assert ["name", "name"][..1] == ["name"];
    assert ["name"][..0] == [];
  }

  // ---------------------------------------------------------------------------
  // putMeta

  /** The property names `putMeta` visits: metadata.mappings[mapping][index][type]
      for every mapping, index and type, in for-in order. */
  function MetaProperties(metadata: Json): seq<string>
    requires !Nullish(metadata)
  {
    MappingProperties(Fields(Get(metadata, "mappings")))
  }

  function MappingProperties(mappings: seq<Field>): seq<string> {
    if mappings == [] then []
    else IndexProperties(Fields(mappings[0].value)) + MappingProperties(mappings[1..])
  }

  function IndexProperties(indices: seq<Field>): seq<string> {
    if indices == [] then []
    else TypeProperties(Fields(indices[0].value)) + IndexProperties(indices[1..])
  }

  function TypeProperties(types: seq<Field>): seq<string> {
    if types == [] then [] else Keys(Fields(types[0].value)) + TypeProperties(types[1..])
  }

  /** The first two header columns, quoted when quoteEverything is set. */
  function HeaderStart(o: CsvOptions): string {
    if o.quoteEverything then "\"index\"" + o.separator + "\"type\"" else "index" + o.separator + "type"
  }

  /** The header: its start, then a separator and the escaped name of each
      column handed out by this call. */
  function HeaderLine(o: CsvOptions, added: seq<string>): string
    decreases |added|
  {
    if added == [] then HeaderStart(o)
    else HeaderLine(o, added[..|added| - 1]) + o.separator + Escape(o, Str(added[|added| - 1]))
  }

  /** The file after `putMeta`: truncated unless append, then the header line
      written only when headers are on and the file is absent or empty. */
  function MetaFile(o: CsvOptions, present: bool, text: string, header: string): (bool, string) {
    var (e, t) := if !o.append then (true, "") else (present, text);
    if !o.noheader && (!e || t == "") then (true, header + "\n") else (e, t)
  }

  // ---------------------------------------------------------------------------
  // putData

  /** The initial cell `[propertyMap.length]`: a property named "length" puts
      its column number there; otherwise it is `undefined`, rendered empty. */
  function FirstCell(m: map<string, nat>): string {
    if "length" in m then Decimal(m["length"]) else ""
  }

  /** `line[k] = x` on a JavaScript array: it grows as needed, and the holes it
      leaves render empty when joined. */
  function SetCell(line: seq<string>, k: nat, x: string): (r: seq<string>)
    ensures |r| == if k < |line| then |line| else k + 1
    ensures r[k] == x
    ensures forall j :: 0 <= j < |r| && j != k ==> r[j] == if j < |line| then line[j] else ""
  {
    if k < |line| then line[k := x] else line + seq(k - |line|, _ => "") + [x]
  }

  /** The field cells of one document: each source field whose name has an own
      column is escaped into that column; other fields are dropped. */
  function Cells(o: CsvOptions, m: map<string, nat>, fields: seq<Field>): seq<string>
    decreases |fields|
  {
    if fields == [] then [FirstCell(m)]
    else
      var line := Cells(o, m, fields[..|fields| - 1]);
      var f := fields[|fields| - 1];
      if f.key in m then SetCell(line, m[f.key], Escape(o, f.value)) else line
  }

  /** The fields that have a column. */
  function Known(m: map<string, nat>, fields: seq<Field>): (r: seq<Field>)
    ensures forall j :: 0 <= j < |r| ==> r[j].key in m
    decreases |fields|
  {
    if fields == [] then []
    else
      var init := Known(m, fields[..|fields| - 1]);
      if fields[|fields| - 1].key in m then init + [fields[|fields| - 1]] else init
  }

  /** A field with no column does not change the row. */
  lemma {:induction false} CellsDropUnknown(o: CsvOptions, m: map<string, nat>, fields: seq<Field>)
    ensures Cells(o, m, fields) == Cells(o, m, Known(m, fields))
    decreases |fields|
  {
    if fields != [] {
      var init := fields[..|fields| - 1];
      CellsDropUnknown(o, m, init);
      var k := Known(m, init);
      if fields[|fields| - 1].key in m {
        assert (k + [fields[|fields| - 1]])[..|k|] == k;
      }
    }
  }

  /** The column of a field, when it has one. */
  predicate HasColumn(m: map<string, nat>, fields: seq<Field>, j: int, k: nat) {
    0 <= j < |fields| && fields[j].key in m && m[fields[j].key] == k
  }

  /** Some field writes column k. */
  ghost predicate Filled(m: map<string, nat>, fields: seq<Field>, k: nat) {
    exists j :: HasColumn(m, fields, j, k)
  }

  /** The length of the cell array: at least one cell, every filled column
      inside it, and no padding past the last filled column. */
  lemma {:induction false} CellsLength(o: CsvOptions, m: map<string, nat>, fields: seq<Field>)
    ensures var c := Cells(o, m, fields);
      && |c| >= 1
      && (forall j :: 0 <= j < |fields| && fields[j].key in m ==> m[fields[j].key] < |c|)
      && (|c| > 1 ==> Filled(m, fields, |c| - 1))
    decreases |fields|
  {
    if fields != [] {
      var init := fields[..|fields| - 1];
      CellsLength(o, m, init);
      var c0 := Cells(o, m, init);
      var c := Cells(o, m, fields);
      var last := |fields| - 1;
      if |c| > 1 {
        if fields[last].key in m && m[fields[last].key] == |c| - 1 {
          assert HasColumn(m, fields, last, |c| - 1);
        } else {
          assert |c| == |c0|;
          assert Filled(m, init, |c0| - 1);
          var j :| HasColumn(m, init, j, |c0| - 1);
          assert HasColumn(m, fields, j, |c| - 1);
        }
      }
    }
  }

  /** A column no field fills is empty (column 0 keeps the initial cell). */
  lemma {:induction false} CellsUnfilled(o: CsvOptions, m: map<string, nat>, fields: seq<Field>, k: nat)
    requires k < |Cells(o, m, fields)|
    requires forall j :: 0 <= j < |fields| && fields[j].key in m ==> m[fields[j].key] != k
    ensures Cells(o, m, fields)[k] == if k == 0 then FirstCell(m) else ""
    decreases |fields|
  {
    if fields != [] {
      var init := fields[..|fields| - 1];
      var c0 := Cells(o, m, init);
      if k < |c0| {
        CellsUnfilled(o, m, init, k);
      } else {
        CellsLength(o, m, init);
      }
    }
  }

  /** A field whose column no later field writes lands in that column, escaped. */
  lemma {:induction false} CellsFilled(o: CsvOptions, m: map<string, nat>, fields: seq<Field>, j: nat)
    requires j < |fields| && fields[j].key in m
    requires forall j' :: j < j' < |fields| && fields[j'].key in m ==> m[fields[j'].key] != m[fields[j].key]
    ensures m[fields[j].key] < |Cells(o, m, fields)|
    ensures Cells(o, m, fields)[m[fields[j].key]] == Escape(o, fields[j].value)
    decreases |fields|
  {
    var last := |fields| - 1;
    if j < last {
      CellsFilled(o, m, fields[..last], j);
    }
  }

  /** A mapped field missing from a document leaves no padding: with columns
      a→0, b→1, c→2, a document holding only `a` yields a single cell. */
  lemma TrailingColumnsNotPadded()
    ensures Cells(Defaults, map["a" := 0, "b" := 1, "c" := 2], [Field("a", Str("x"))]) == ["x"]
  {
    assert [Field("a", Str("x"))][..0] == [];
    assert Trim("x") == "x" by { TrimFixed("x"); }
    assert ExponentAt("x") == 1;
    assert !DecimalLiteral("x");
    assert !Contains("x", "\n") by { ContainsChar("x", '\n'); }
    assert !Contains("x", "\"") by { ContainsChar("x", '"'); }
    assert !Contains("x", ",") by { ContainsChar("x", ','); }
  }

  /** A property named "length" shows its column number in column 0. */
  lemma LengthPropertyQuirk()
    ensures Cells(Defaults, map["a" := 0, "length" := 1], []) == ["1"]
  {
  }

  /** The cells of one row: `_index`, `_type`, then the field cells. */
  function RowCells(o: CsvOptions, m: map<string, nat>, doc: Json): seq<string>
    requires !Nullish(doc)
  {
    [JoinText(Get(doc, "_index")), JoinText(Get(doc, "_type"))] + Cells(o, m, Fields(Get(doc, "_source")))
  }

  /** The line written for one document. */
  function Line(o: CsvOptions, m: map<string, nat>, doc: Json): string
    requires !Nullish(doc)
  {
    Join(RowCells(o, m, doc), o.separator) + "\n"
  }

  /** The text appended for a batch of documents, one line per document. */
  function Rows(o: CsvOptions, m: map<string, nat>, docs: seq<Json>): string
    requires forall i :: 0 <= i < |docs| ==> !Nullish(docs[i])
    decreases |docs|
  {
    if docs == [] then "" else Rows(o, m, docs[..|docs| - 1]) + Line(o, m, docs[|docs| - 1])
  }

  lemma RowsSnoc(o: CsvOptions, m: map<string, nat>, docs: seq<Json>, i: nat)
    requires i < |docs| && forall k :: 0 <= k <= i ==> !Nullish(docs[k])
    ensures Rows(o, m, docs[..i + 1]) == Rows(o, m, docs[..i]) + Line(o, m, docs[i])
  {
    assert docs[..i + 1][..i] == docs[..i];
  }

  /** The scan for a null or undefined document stops at the first one. */
  lemma FirstNullishAt(docs: seq<Json>, i: nat)
    requires i <= FirstNullish(docs) && (i == |docs| || Nullish(docs[i]))
    ensures i == FirstNullish(docs)
  {
  }

  /** The position of the first null or undefined document, or |docs|. */
  function FirstNullish(docs: seq<Json>): (k: nat)
    ensures k <= |docs|
    ensures forall i :: 0 <= i < k ==> !Nullish(docs[i])
    ensures k < |docs| ==> Nullish(docs[k])
  {
    if docs == [] then 0 else if Nullish(docs[0]) then 0 else 1 + FirstNullish(docs[1..])
  }

  // ---------------------------------------------------------------------------
  // The driver's module state and its file

  class CsvTarget {
    var propertyMap: map<string, nat>
    var indexCounter: nat
    var fileExists: bool
    var fileText: string
    /** The columns handed out since the last reset, in order. */
    ghost var names: seq<string>

    ghost predicate Valid()
      reads this
    {
      Consistent(propertyMap, indexCounter, names)
    }

    /** The module's initial state, next to an output file as found. */
    constructor (present: bool, text: string)
      ensures Valid() && propertyMap == map[] && indexCounter == 0 && names == []
      ensures fileExists == present && fileText == text
    {
      propertyMap := map[];
      indexCounter := 0;
      fileExists := present;
      fileText := text;
      names := [];
    }

    /** `reset`: the schema is emptied whatever it held, so resetting twice is
        the same as resetting once; the file is not touched. */
    method Reset()
      modifies this
      ensures Valid() && propertyMap == map[] && indexCounter == 0 && names == []
      ensures fileExists == old(fileExists) && fileText == old(fileText)
    {
      propertyMap := map[];
      indexCounter := 0;
      names := [];
    }

    /** `putMeta`: truncate the file unless appending, hand out columns to the
        properties of the metadata, build the header and write it when it is
        wanted and the file is absent or empty. Null or undefined metadata
        throws at `metadata.mappings`, after the truncation. */
    method PutMeta(o: CsvOptions, metadata: Json) returns (threw: bool)
      requires Valid()
      modifies this
      ensures Valid()
      ensures threw <==> Nullish(metadata)
      ensures Nullish(metadata) ==>
        && propertyMap == old(propertyMap) && indexCounter == old(indexCounter) && names == old(names)
        && (fileExists, fileText) == (if o.append then (old(fileExists), old(fileText)) else (true, ""))
      ensures !Nullish(metadata) ==>
        var a := Assign(old(propertyMap), old(indexCounter), MetaProperties(metadata));
        && propertyMap == a.propertyMap && indexCounter == a.counter
        && names == old(names) + a.added
        && (fileExists, fileText) == MetaFile(o, old(fileExists), old(fileText), HeaderLine(o, a.added))
    {
      if !o.append {
        fileExists, fileText := true, "";
      }
      if Nullish(metadata) {
        return true;
      }
      var header := AssignColumns(o, MetaProperties(metadata));
      if !o.noheader {
        if !fileExists || fileText == "" {
          fileExists, fileText := true, header + "\n";
        }
      }
      threw := false;
    }

    /** The loop of `putMeta` over the visited property names: each name that
        `!propertyMap[property]` calls unseen gets the counter as its column,
        the counter goes up, and the escaped name joins the header. */
    method AssignColumns(o: CsvOptions, props: seq<string>) returns (header: string)
      requires Valid()
      modifies this`propertyMap, this`indexCounter, this`names
      ensures Valid()
      ensures var a := Assign(old(propertyMap), old(indexCounter), props);
        && propertyMap == a.propertyMap && indexCounter == a.counter
        && names == old(names) + a.added
        && header == HeaderLine(o, a.added)
    {
      ghost var m0, c0, names0 := propertyMap, indexCounter, names;
      header := HeaderStart(o);
      ghost var added: seq<string> := [];
      var i := 0;
      while i < |props|
        invariant 0 <= i <= |props|
        invariant Assign(m0, c0, props[..i]) == Assignment(propertyMap, indexCounter, added)
        invariant header == HeaderLine(o, added)
        invariant names == names0 + added
      {
        var p := props[i];
        assert props[..i + 1][..i] == props[..i];
        if Unseen(propertyMap, p) {
          propertyMap := propertyMap[p := indexCounter];
          indexCounter := indexCounter + 1;
          header := header + o.separator + Escape(o, Str(p));
          added := added + [p];
          names := names + [p];
        }
        i := i + 1;
      }
      assert props[..|props|] == props;
      AssignKeepsConsistent(m0, c0, names0, props);
    }

    /** `putData`: one line per document, appended to the file; the schema is
        not touched, so fields it does not know are dropped. A null or
        undefined document throws at `docs[i]._source`, after the lines of
        the documents before it. */
    method PutData(o: CsvOptions, docs: seq<Json>) returns (threw: bool)
      modifies this`fileExists, this`fileText
      ensures Valid() == old(Valid())
      ensures var k := FirstNullish(docs);
        && (threw <==> k < |docs|)
        && fileText == old(fileText) + Rows(o, propertyMap, docs[..k])
        && fileExists == (old(fileExists) || k > 0)
    {
      var lines;
      lines, threw := RenderRows(o, docs);
      fileText := fileText + lines;
      fileExists := fileExists || FirstNullish(docs) > 0;
    }

    /** The loop of `putData` over the documents, each rendered to its line,
        up to the first null or undefined one. */
    method RenderRows(o: CsvOptions, docs: seq<Json>) returns (lines: string, threw: bool)
      ensures var k := FirstNullish(docs);
        lines == Rows(o, propertyMap, docs[..k]) && (threw <==> k < |docs|)
    {
      lines := "";
      var i := 0;
      while i < |docs| && !Nullish(docs[i])
        invariant 0 <= i <= FirstNullish(docs)
        invariant lines == Rows(o, propertyMap, docs[..i])
      {
        var row := RenderRow(o, docs[i]);
        RowsSnoc(o, propertyMap, docs, i);
        lines := lines + row;
        i := i + 1;
      }
      FirstNullishAt(docs, i);
      threw := i < |docs|;
    }

    /** One document's line: its field cells, then `_type` and `_index`
        unshifted in front, joined by the separator. */
    method RenderRow(o: CsvOptions, doc: Json) returns (row: string)
      requires !Nullish(doc)
      ensures row == Line(o, propertyMap, doc)
    {
      var line := FieldCells(o, Fields(Get(doc, "_source")));
      line := [JoinText(Get(doc, "_type"))] + line;
      line := [JoinText(Get(doc, "_index"))] + line;
      assert line == RowCells(o, propertyMap, doc);
      row := Join(line, o.separator) + "\n";
    }

    /** The inner loop of `putData`: `line[propertyMap[property]] = escape(…)`
        for every field of one document's `_source`. */
    method FieldCells(o: CsvOptions, source: seq<Field>) returns (line: seq<string>)
      ensures line == Cells(o, propertyMap, source)
    {
      line := [FirstCell(propertyMap)];
      var j := 0;
      while j < |source|
        invariant 0 <= j <= |source|
        invariant line == Cells(o, propertyMap, source[..j])
      {
        assert source[..j + 1][..j] == source[..j];
        var f := source[j];
        if f.key in propertyMap {
          line := SetCell(line, propertyMap[f.key], Escape(o, f.value));
        }
        j := j + 1;
      }
      assert source[..|source|] == source;
    }
  }

  /** With a fresh schema, the header names every mapped property at the very
      column its values are written to. */
  lemma HeaderNamesMatchColumns(props: seq<string>)
    ensures var a := Assign(map[], 0, props);
      forall p :: p in a.propertyMap ==> a.propertyMap[p] < |a.added| && a.added[a.propertyMap[p]] == p
  {
    AssignKeepsConsistent(map[], 0, [], props);
  }

  /** Metadata as a read of every index delivers it, with one index `idx`, one
      type `doc` and the fields `name` and `age`: the four nested for-in loops
      visit mappings, index, type and then the keys of `properties`. */
  const NameAgeMetadata := Obj([Field("mappings", Obj([Field("idx", Obj([Field("doc", Obj([
    Field("properties", Obj([Field("name", Obj([])), Field("age", Obj([]))]))]))]))]))])

  /** The property names of the metadata above, in order. */
  lemma NameAgeProperties()
    ensures MetaProperties(NameAgeMetadata) == ["name", "age"]
  {
  }

  /** No name occurs twice. */
  predicate Distinct(props: seq<string>) {
    forall i, j :: 0 <= i < j < |props| ==> props[i] != props[j]
  }

  /** No name is inherited from Object.prototype. */
  predicate NoneInherited(props: seq<string>) {
    forall i :: 0 <= i < |props| ==> props[i] !in ObjectPrototypeNames
  }

  /** Each name holds the column of its position. */
  predicate Positional(m: map<string, nat>, props: seq<string>) {
    forall i :: 0 <= i < |props| ==> props[i] in m && m[props[i]] == i
  }

  /** On a fresh schema, distinct names get the columns 0, 1, 2, … in order. */
  lemma {:induction false} FreshAssign(props: seq<string>)
    requires Distinct(props) && NoneInherited(props)
    ensures var a := Assign(map[], 0, props);
      && a.counter == |props| && a.added == props
      && (forall p :: p in a.propertyMap <==> p in props)
      && Positional(a.propertyMap, props)
    decreases |props|
  {
    if props != [] {
      var init := props[..|props| - 1];
      FreshAssign(init);
      var last := props[|props| - 1];
      assert last !in init;
      var a := Assign(map[], 0, init);
      assert Unseen(a.propertyMap, last);
      assert props == init + [last];
      PositionalExtend(a.propertyMap, init, last);
    }
  }

  /** Giving a new name the next position keeps every earlier position. */
  lemma PositionalExtend(m: map<string, nat>, props: seq<string>, p: string)
    requires Positional(m, props) && p !in props
    ensures Positional(m[p := |props|], props + [p])
  {
    var props' := props + [p];
    forall i | 0 <= i < |props'|
      ensures props'[i] in m[p := |props|] && m[p := |props|][props'[i]] == i
    {
      if i < |props| {
        assert props'[i] == props[i] != p;
      }
    }
  }

  /** Meeting again the names that hold the columns 0, 1, 2, … moves only the
      first of them, whose column 0 reads as unseen, to the next column; it is
      the one name added to the header. */
  lemma {:induction false} ReassignFirst(m: map<string, nat>, counter: nat, props: seq<string>)
    requires |props| >= 1 && Distinct(props)
    requires Positional(m, props)
    ensures Assign(m, counter, props) == Assignment(m[props[0] := counter], counter + 1, [props[0]])
    decreases |props|
  {
    var init := props[..|props| - 1];
    if |props| == 1 {
      assert init == [];
    } else {
      ReassignFirst(m, counter, init);
      assert props[|props| - 1] != props[0];
    }
  }

  /** Two `putMeta` calls with the same distinct fields on a fresh schema: the
      first maps them to 0, 1, 2, … and names them all in the header; the
      second moves the first field from column 0 to the end and names only it. */
  lemma RepeatedPutMeta(props: seq<string>)
    requires |props| >= 1 && Distinct(props) && NoneInherited(props)
    ensures var a := Assign(map[], 0, props);
      && a.added == props
      && Assign(a.propertyMap, a.counter, props)
         == Assignment(a.propertyMap[props[0] := |props|], |props| + 1, [props[0]])
  {
    var a := Assign(map[], 0, props);
    FreshAssign(props);
    ReassignFirst(a.propertyMap, a.counter, props);
  }

  /** The file after `putMeta`, case by case: the header is written over an
      absent, empty or truncated file; with noheader the file is only
      truncated; an appended, non-empty file is left as it is. */
  lemma MetaFileCases(o: CsvOptions, present: bool, text: string, header: string)
    ensures var (e, t) := MetaFile(o, present, text, header);
      && (!o.noheader && (!o.append || !present || text == "") ==> e && t == header + "\n")
      && (o.noheader && !o.append ==> e && t == "")
      && (o.append && (o.noheader || (present && text != "")) ==> e == present && t == text)
  {
  }
}
