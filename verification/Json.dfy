/**
 JSON as `json.dumps(ensure_ascii=False)` writes it and `json.loads` reads it.

 Objects are field lists in the order they are printed. Two layouts are in use: one
 line per record in a log, and the indented block a findings fence carries.
 */
module Json {
  import opened Wrappers

  datatype Json =
    | Null
    | Bool(b: bool)
    | Num(token: string)
    | Str(s: string)
    | Arr(items: seq<Json>)
    | Obj(fields: seq<Field>)

  datatype Field = Field(name: string, value: Json)

  /** `json.dumps(v)` and `json.dumps(v, indent=width)`. */
  datatype Style = Compact | Indented(width: nat)

  // -------------------------------------------------------------- numbers

  predicate IsDigit(c: char) { '0' <= c <= '9' }

  predicate NumChar(c: char) {
    IsDigit(c) || c == '+' || c == '-' || c == '.' || c == 'e' || c == 'E'
  }

  function DigitRun(s: string): (n: nat)
    ensures n <= |s|
  {
    if s != "" && IsDigit(s[0]) then 1 + DigitRun(s[1..]) else 0
  }

  function AfterFraction(s: string): Option<string> {
    if s != "" && s[0] == '.' then
      var n := DigitRun(s[1..]);
      if n == 0 then None else Some(s[1 + n..])
    else Some(s)
  }

  predicate IsExponent(s: string) {
    s == ""
    || ((s[0] == 'e' || s[0] == 'E')
        && var t := if |s| > 1 && (s[1] == '+' || s[1] == '-') then s[2..] else s[1..];
        t != "" && DigitRun(t) == |t|)
  }

  /** `-?(0|[1-9]\d*)(\.\d+)?([eE][+-]?\d+)?` */
  predicate IsNumber(s: string) {
    var t := if s != "" && s[0] == '-' then s[1..] else s;
    var n := DigitRun(t);
    n > 0 && (t[0] == '0' ==> n == 1)
    && var rest := AfterFraction(t[n..]);
    rest.Some? && IsExponent(rest.value)
  }

  /** The numbers in a value are numerals, so that printing them is printing JSON. */
  predicate WellFormed(v: Json) {
    match v
    case Num(token) => IsNumber(token) && forall i | 0 <= i < |token| :: NumChar(token[i])
    case Arr(items) => forall i | 0 <= i < |items| :: WellFormed(items[i])
    case Obj(fields) => forall i | 0 <= i < |fields| :: WellFormed(fields[i].value)
    case _ => true
  }

  // ------------------------------------------------------------- printing

  function HexDigit(d: nat): char
    requires d < 16
  {
    "0123456789abcdef"[d]
  }

  function EscapeChar(c: char): (e: string)
    ensures e != "" && e[0] != '"'
    ensures forall i | 0 <= i < |e| :: e[i] >= ' '
    ensures c >= ' ' ==> forall i | 0 <= i < |e| :: e[i] == c || e[i] == '\\'
    ensures c < ' ' ==> forall i | 0 <= i < |e| :: e[i] < '\U{80}'
  {
    if c == '"' then "\\\""
    else if c == '\\' then "\\\\"
    else if c == '\n' then "\\n"
    else if c == '\r' then "\\r"
    else if c == '\t' then "\\t"
    else if c == '\U{8}' then "\\b"
    else if c == '\U{C}' then "\\f"
    else if c < ' ' then "\\u00" + [HexDigit(c as int / 16), HexDigit(c as int % 16)]
    else [c]
  }

  function Escape(s: string): string {
    if s == "" then "" else EscapeChar(s[0]) + Escape(s[1..])
  }

  function Quote(s: string): string {
    "\"" + Escape(s) + "\""
  }

  function Spaces(n: nat): (s: string)
    ensures |s| == n && forall i | 0 <= i < n :: s[i] == ' '
  {
    if n == 0 then "" else " " + Spaces(n - 1)
  }

  function NewLine(style: Style, level: nat): string {
    match style
    case Compact => ""
    case Indented(width) => "\n" + Spaces(width * level)
  }

  function AfterComma(style: Style, level: nat): string {
    if style.Compact? then " " else NewLine(style, level)
  }

  function Dump(v: Json, style: Style, level: nat): string
    decreases v, 1
  {
    match v
    case Null => "null"
    case Bool(b) => if b then "true" else "false"
    case Num(token) => token
    case Str(s) => Quote(s)
    case Arr(items) =>
      if items == [] then "[]"
      else "[" + NewLine(style, level + 1) + DumpItems(items, style, level + 1)
           + NewLine(style, level) + "]"
    case Obj(fields) =>
      if fields == [] then "{}"
      else "{" + NewLine(style, level + 1) + DumpFields(fields, style, level + 1)
           + NewLine(style, level) + "}"
  }

  function DumpItems(items: seq<Json>, style: Style, level: nat): string
    requires items != []
    decreases items, 0
  {
    Dump(items[0], style, level)
    + if |items| == 1 then ""
      else "," + AfterComma(style, level) + DumpItems(items[1..], style, level)
  }

  function DumpFields(fields: seq<Field>, style: Style, level: nat): string
    requires fields != []
    decreases fields, 0
  {
    Quote(fields[0].name) + ": " + Dump(fields[0].value, style, level)
    + if |fields| == 1 then ""
      else "," + AfterComma(style, level) + DumpFields(fields[1..], style, level)
  }

  function FieldHead(f: Field, style: Style, level: nat): string {
    Quote(f.name) + ": " + Dump(f.value, style, level)
  }

  // -------------------------------------------------------------- parsing

  predicate IsWs(c: char) { c == ' ' || c == '\t' || c == '\n' || c == '\r' }

  predicate AllWs(s: string) { forall i | 0 <= i < |s| :: IsWs(s[i]) }

  function SkipWs(s: string): (r: string)
    ensures |r| <= |s|
    ensures r != "" ==> !IsWs(r[0])
  {
    if s != "" && IsWs(s[0]) then SkipWs(s[1..]) else s
  }

  function HexValue(c: char): Option<nat> {
    if IsDigit(c) then Some(c as int - '0' as int)
    else if 'a' <= c <= 'f' then Some(c as int - 'a' as int + 10)
    else if 'A' <= c <= 'F' then Some(c as int - 'A' as int + 10)
    else None
  }

  /** One character of a string, after its backslash. */
  function ParseEscape(s: string): (r: Option<(char, string)>)
    ensures r.Some? ==> |r.value.1| < |s|
  {
    if s == "" then None
    else if s[0] == '"' || s[0] == '\\' || s[0] == '/' then Some((s[0], s[1..]))
    else if s[0] == 'n' then Some(('\n', s[1..]))
    else if s[0] == 'r' then Some(('\r', s[1..]))
    else if s[0] == 't' then Some(('\t', s[1..]))
    else if s[0] == 'b' then Some(('\U{8}', s[1..]))
    else if s[0] == 'f' then Some(('\U{C}', s[1..]))
    else if s[0] == 'u' && |s| >= 5 then
      var a, b, c, d := HexValue(s[1]), HexValue(s[2]), HexValue(s[3]), HexValue(s[4]);
      if a.None? || b.None? || c.None? || d.None? then None
      else
        var code := a.value * 4096 + b.value * 256 + c.value * 16 + d.value;
        if 0 <= code < 0xD800 || 0xE000 <= code < 0x1_0000 then Some((code as char, s[5..]))
        else None
    else None
  }

  function ParseUnit(s: string): (r: Option<(char, string)>)
    ensures r.Some? ==> |r.value.1| < |s|
  {
    if s == "" || s[0] < ' ' then None
    else if s[0] == '\\' then ParseEscape(s[1..])
    else Some((s[0], s[1..]))
  }

  /** The rest of a string, after its opening quote. */
  function ParseString(s: string): (r: Option<(string, string)>)
    ensures r.Some? ==> |r.value.1| < |s|
  {
    if s == "" then None
    else if s[0] == '"' then Some(("", s[1..]))
    else
      match ParseUnit(s)
      case None => None
      case Some((c, rest)) =>
        match ParseString(rest)
        case None => None
        case Some((cs, after)) => Some(([c] + cs, after))
  }

  function NumRun(s: string): (n: nat)
    ensures n <= |s|
    ensures n < |s| ==> !NumChar(s[n])
    ensures forall i | 0 <= i < n :: NumChar(s[i])
  {
    if s != "" && NumChar(s[0]) then 1 + NumRun(s[1..]) else 0
  }

  predicate Starts(s: string, prefix: string) {
    |prefix| <= |s| && s[..|prefix|] == prefix
  }

  function ParseScalar(t: string): (r: Option<(Json, string)>)
    ensures r.Some? ==> |r.value.1| < |t|
  {
    if Starts(t, "null") then Some((Null, t[4..]))
    else if Starts(t, "true") then Some((Bool(true), t[4..]))
    else if Starts(t, "false") then Some((Bool(false), t[5..]))
    else ParseNumber(t)
  }

  function ParseNumber(t: string): (r: Option<(Json, string)>)
    ensures r.Some? ==> |r.value.1| < |t|
  {
    var n := NumRun(t);
    if n > 0 && IsNumber(t[..n]) then Some((Num(t[..n]), t[n..])) else None
  }

  function ParseValue(s: string): (r: Option<(Json, string)>)
    ensures r.Some? ==> |r.value.1| < |s|
    decreases |s|, 0
  {
    var t := SkipWs(s);
    if t == "" then None
    else if t[0] == '"' then
      match ParseString(t[1..])
      case None => None
      case Some((x, rest)) => Some((Str(x), rest))
    else if t[0] == '[' then
      match ParseArray(t[1..])
      case None => None
      case Some((items, rest)) => Some((Arr(items), rest))
    else if t[0] == '{' then
      match ParseObject(t[1..])
      case None => None
      case Some((fields, rest)) => Some((Obj(fields), rest))
    else ParseScalar(t)
  }

  function ParseArray(s: string): (r: Option<(seq<Json>, string)>)
    ensures r.Some? ==> |r.value.1| < |s|
    decreases |s|, 2
  {
    var t := SkipWs(s);
    if t != "" && t[0] == ']' then Some(([], t[1..])) else ParseItems(s)
  }

  function ParseItems(s: string): (r: Option<(seq<Json>, string)>)
    ensures r.Some? ==> |r.value.1| < |s|
    decreases |s|, 1
  {
    match ParseValue(s)
    case None => None
    case Some((v, rest)) => ItemsAfter(v, SkipWs(rest))
  }

  function ItemsAfter(v: Json, t: string): (r: Option<(seq<Json>, string)>)
    ensures r.Some? ==> |r.value.1| < |t|
    decreases |t|, 0
  {
    if t == "" then None
    else if t[0] == ']' then Some(([v], t[1..]))
    else if t[0] == ',' then
      match ParseItems(t[1..])
      case None => None
      case Some((vs, after)) => Some(([v] + vs, after))
    else None
  }

  function ParseObject(s: string): (r: Option<(seq<Field>, string)>)
    ensures r.Some? ==> |r.value.1| < |s|
    decreases |s|, 2
  {
    var t := SkipWs(s);
    if t != "" && t[0] == '}' then Some(([], t[1..])) else ParseFields(s)
  }

  function ParseFields(s: string): (r: Option<(seq<Field>, string)>)
    ensures r.Some? ==> |r.value.1| < |s|
    decreases |s|, 1
  {
    match ParseField(s)
    case None => None
    case Some((f, rest)) => FieldsAfter(f, SkipWs(rest))
  }

  function FieldsAfter(f: Field, t: string): (r: Option<(seq<Field>, string)>)
    ensures r.Some? ==> |r.value.1| < |t|
    decreases |t|, 0
  {
    if t == "" then None
    else if t[0] == '}' then Some(([f], t[1..]))
    else if t[0] == ',' then
      match ParseFields(t[1..])
      case None => None
      case Some((fs, after)) => Some(([f] + fs, after))
    else None
  }

  function ParseField(s: string): (r: Option<(Field, string)>)
    ensures r.Some? ==> |r.value.1| < |s|
    decreases |s|, 0
  {
    var t := SkipWs(s);
    if t == "" || t[0] != '"' then None
    else
      match ParseString(t[1..])
      case None => None
      case Some((name, rest)) =>
        var u := SkipWs(rest);
        if u == "" || u[0] != ':' then None
        else
          match ParseValue(u[1..])
          case None => None
          case Some((v, after)) => Some((Field(name, v), after))
  }

  /** `json.loads`: one value and nothing but whitespace around it. */
  function Loads(s: string): Option<Json> {
    match ParseValue(s)
    case Some((v, rest)) => if SkipWs(rest) == "" then Some(v) else None
    case None => None
  }

  // ------------------------------------------------- reading what was printed

  /** Text a number cannot run into. */
  predicate Stops(t: string) { t == "" || !NumChar(t[0]) }

  lemma {:induction false} SkipsWs(w: string, s: string)
    requires AllWs(w)
    ensures SkipWs(w + s) == SkipWs(s)
  {
    if w == "" {
      assert w + s == s;
    } else {
      assert (w + s)[1..] == w[1..] + s;
      SkipsWs(w[1..], s);
    }
  }

  lemma LayoutIsWs(style: Style, level: nat)
    ensures AllWs(NewLine(style, level)) && AllWs(AfterComma(style, level))
  {
  }

  lemma UnitOfEscape(c: char, t: string)
    ensures ParseUnit(EscapeChar(c) + t) == Some((c, t))
  {
    var e := EscapeChar(c);
    var s := e + t;
    if c < ' ' && c != '\n' && c != '\r' && c != '\t' && c != '\U{8}' && c != '\U{C}' {
      assert s[1..][5..] == t;
      assert HexValue(HexDigit(c as int / 16)) == Some(c as int / 16);
      assert HexValue(HexDigit(c as int % 16)) == Some(c as int % 16);
      assert s[1..][1] == '0' && s[1..][2] == '0';
    } else if e == [c] {
      assert s[1..] == t;
    } else {
      assert s[1..][1..] == t;
    }
  }

  lemma {:induction false} StringOfQuote(x: string, t: string)
    ensures ParseString(Escape(x) + "\"" + t) == Some((x, t))
  {
    if x == "" {
      assert (Escape(x) + "\"" + t)[1..] == t;
    } else {
      var rest := Escape(x[1..]) + "\"" + t;
      assert Escape(x) + "\"" + t == EscapeChar(x[0]) + rest;
      UnitOfEscape(x[0], rest);
      StringOfQuote(x[1..], t);
      assert [x[0]] + x[1..] == x;
    }
  }

  lemma {:induction false} NumRunOf(token: string, t: string)
    requires forall i | 0 <= i < |token| :: NumChar(token[i])
    requires Stops(t)
    ensures NumRun(token + t) == |token|
  {
    if token == "" {
      assert token + t == t;
    } else {
      assert (token + t)[1..] == token[1..] + t;
      NumRunOf(token[1..], t);
    }
  }

  lemma NumberStart(token: string)
    requires IsNumber(token)
    ensures token != "" && (token[0] == '-' || IsDigit(token[0]))
  {
  }

  /** No printed value begins with whitespace or with a closing bracket. */
  lemma DumpStart(v: Json, style: Style, level: nat)
    requires WellFormed(v)
    ensures var d := Dump(v, style, level);
            d != "" && !IsWs(d[0]) && d[0] != ']' && d[0] != '}'
  {
    if v.Num? { NumberStart(v.token); }
  }

  lemma ValueSkips(w: string, s: string)
    requires AllWs(w)
    ensures ParseValue(w + s) == ParseValue(s)
  {
    SkipsWs(w, s);
    SkipIdempotent(s);
  }

  lemma SkipIdempotent(s: string)
    ensures SkipWs(SkipWs(s)) == SkipWs(s)
  {
  }

  lemma ItemsSkip(w: string, s: string)
    requires AllWs(w)
    ensures ParseItems(w + s) == ParseItems(s)
  {
    ValueSkips(w, s);
  }

  lemma FieldsSkip(w: string, s: string)
    requires AllWs(w)
    ensures ParseFields(w + s) == ParseFields(s)
  {
    SkipsWs(w, s);
    SkipIdempotent(s);
  }

  /** What follows the last item: layout and the closing bracket. */
  lemma CloseStops(close: string, bracket: char, t: string)
    requires AllWs(close) && !NumChar(bracket) && !IsWs(bracket)
    ensures Stops(close + [bracket] + t)
    ensures SkipWs(close + [bracket] + t) == [bracket] + t
    ensures ([bracket] + t)[1..] == t
  {
    if close != "" { assert IsWs(close[0]); }
    assert close + [bracket] + t == close + ([bracket] + t);
    SkipsWs(close, [bracket] + t);
  }

  // Printed text, regrouped from the left so that a parser can walk it.

  lemma Assoc(a: string, b: string, c: string)
    ensures (a + b) + c == a + (b + c)
  {
  }

  lemma Behind(c: char, t: string)
    ensures ([c] + t)[0] == c && ([c] + t)[1..] == t
  {
  }

  lemma BracketText(open: char, a: string, body: string, b: string, close: char, t: string)
    ensures [open] + a + body + b + [close] + t == [open] + (a + (body + (b + [close] + t)))
  {
    Assoc([open] + a + body + b, [close], t);
    Assoc([open] + a + body, b, [close] + t);
    Assoc(b, [close], t);
    Assoc([open] + a, body, b + ([close] + t));
    Assoc([open], a, body + (b + ([close] + t)));
  }

  lemma CommaText(d: string, gap: string, rest: string, t: string)
    ensures d + ("," + gap + rest) + t == d + ("," + (gap + (rest + t)))
  {
    Assoc(d, "," + gap + rest, t);
    Assoc("," + gap, rest, t);
    Assoc(",", gap, rest + t);
  }

  lemma FieldText(name: string, d: string, t: string)
    ensures Quote(name) + ": " + d + t == "\"" + (Escape(name) + "\"" + (":" + (" " + (d + t))))
  {
    Assoc(Quote(name) + ": ", d, t);
    Assoc(Quote(name), ": ", d + t);
    Assoc(":", " ", d + t);
    assert ":" + " " == ": ";
    Assoc("\"" + Escape(name), "\"", ": " + (d + t));
    Assoc("\"", Escape(name), "\"" + (": " + (d + t)));
    Assoc(Escape(name), "\"", ": " + (d + t));
  }

  lemma FieldOf(name: string, x: string, v: Json, t: string)
    requires ParseValue(x) == Some((v, t))
    ensures ParseField("\"" + (Escape(name) + "\"" + (":" + x))) == Some((Field(name, v), t))
  {
    Behind('"', Escape(name) + "\"" + (":" + x));
    StringOfQuote(name, ":" + x);
    Behind(':', x);
  }

  lemma BraceStart(s: string)
    requires s != "" && s[0] == '{' && ParseObject(s[1..]).Some?
    ensures ParseValue(s) == Some((Obj(ParseObject(s[1..]).value.0), ParseObject(s[1..]).value.1))
  {
  }

  lemma ObjectIsFields(x: string)
    requires SkipWs(x) != "" && SkipWs(x)[0] != '}'
    ensures ParseObject(x) == ParseFields(x)
  {
  }

  lemma ObjectOf(x: string, fields: seq<Field>, t: string)
    requires ParseFields(x) == Some((fields, t))
    requires SkipWs(x) != "" && SkipWs(x)[0] != '}'
    ensures ParseValue("{" + x) == Some((Obj(fields), t))
  {
    ObjectIsFields(x);
    Behind('{', x);
    BraceStart("{" + x);
  }

  lemma FieldsOf(x: string, f: Field, y: string, fs: seq<Field>, t: string)
    requires ParseField(x) == Some((f, "," + y)) && ParseFields(y) == Some((fs, t))
    ensures ParseFields(x) == Some(([f] + fs, t))
  {
    Behind(',', y);
  }

  lemma FieldsStart(fields: seq<Field>, style: Style, level: nat, t: string)
    requires fields != []
    ensures var d := DumpFields(fields, style, level) + t;
            d != "" && d[0] == '"'
  {
    assert Quote(fields[0].name)[0] == '"';
  }

  /** What begins with none of the marks of a string, an array or an object is a scalar. */
  lemma ScalarStart(s: string)
    requires s != "" && !IsWs(s[0]) && s[0] != '"' && s[0] != '[' && s[0] != '{'
    ensures ParseValue(s) == ParseScalar(s)
  {
  }

  lemma WordStarts(word: string, t: string)
    ensures Starts(word + t, word) && (word + t)[|word|..] == t
  {
    assert (word + t)[..|word|] == word;
  }

  lemma ReadsWord(word: string, t: string)
    requires word == "null" || word == "true" || word == "false"
    ensures ParseScalar(word + t) == Some((if word == "null" then Null else Bool(word == "true"), t))
  {
    WordStarts(word, t);
    assert (word + t)[0] == word[0];
  }

  lemma NumberFirst(s: string)
    requires s != "" && NumChar(s[0]) && s[0] != 'n' && s[0] != 't' && s[0] != 'f'
    ensures ParseScalar(s) == ParseNumber(s)
  {
    assert !Starts(s, "null") && !Starts(s, "true") && !Starts(s, "false") by {
      assert "null"[0] == 'n' && "true"[0] == 't' && "false"[0] == 'f';
      assert |s| >= 4 ==> s[..4][0] == s[0];
      assert |s| >= 5 ==> s[..5][0] == s[0];
    }
  }

  lemma NumberAt(s: string, token: string, t: string)
    requires s == token + t && NumRun(s) == |token| > 0 && IsNumber(token)
    ensures ParseNumber(s) == Some((Num(token), t))
  {
    assert s[..|token|] == token && s[|token|..] == t;
  }

  lemma ReadsNumber(token: string, t: string)
    requires WellFormed(Num(token)) && Stops(t)
    ensures ParseScalar(token + t) == Some((Num(token), t))
  {
    NumRunOf(token, t);
    NumberStart(token);
    NumberAt(token + t, token, t);
    assert (token + t)[0] == token[0];
    NumberFirst(token + t);
  }

  lemma ReadsScalar(v: Json, style: Style, level: nat, t: string)
    requires WellFormed(v) && Stops(t) && !v.Arr? && !v.Obj? && !v.Str?
    ensures ParseValue(Dump(v, style, level) + t) == Some((v, t))
  {
    var d := Dump(v, style, level);
    DumpStart(v, style, level);
    assert (d + t)[0] == d[0];
    match v {
      case Null => ReadsWord("null", t);
      case Bool(b) => ReadsWord(if b then "true" else "false", t);
      case Num(token) =>
        NumberStart(token);
        ReadsNumber(token, t);
    }
    ScalarStart(d + t);
  }

  lemma ReadsString(x: string, t: string)
    ensures ParseValue(Quote(x) + t) == Some((Str(x), t))
  {
    Assoc("\"" + Escape(x), "\"", t);
    Assoc("\"", Escape(x), "\"" + t);
    Assoc(Escape(x), "\"", t);
    Behind('"', Escape(x) + "\"" + t);
    StringOfQuote(x, t);
  }

  lemma {:induction false} ReadsValue(v: Json, style: Style, level: nat, t: string)
    requires WellFormed(v) && Stops(t)
    ensures ParseValue(Dump(v, style, level) + t) == Some((v, t))
    decreases v, 1
  {
    match v {
      case Arr(items) => ReadsArray(items, style, level, t);
      case Obj(fields) => ReadsObject(fields, style, level, t);
      case Str(x) => ReadsString(x, t);
      case _ => ReadsScalar(v, style, level, t);
    }
  }

  lemma BracketStart(s: string)
    requires s != "" && s[0] == '[' && ParseArray(s[1..]).Some?
    ensures ParseValue(s) == Some((Arr(ParseArray(s[1..]).value.0), ParseArray(s[1..]).value.1))
  {
  }

  lemma ArrayIsItems(x: string)
    requires SkipWs(x) != "" && SkipWs(x)[0] != ']'
    ensures ParseArray(x) == ParseItems(x)
  {
  }

  lemma ArrayOf(x: string, items: seq<Json>, t: string)
    requires ParseItems(x) == Some((items, t))
    requires SkipWs(x) != "" && SkipWs(x)[0] != ']'
    ensures ParseValue("[" + x) == Some((Arr(items), t))
  {
    ArrayIsItems(x);
    Behind('[', x);
    BracketStart("[" + x);
  }

  lemma {:induction false} ReadsArray(items: seq<Json>, style: Style, level: nat, t: string)
    requires WellFormed(Arr(items))
    ensures ParseValue(Dump(Arr(items), style, level) + t) == Some((Arr(items), t))
    decreases items, 2
  {
    if items == [] {
      Assoc("[", "]", t);
      Behind('[', "]" + t);
      Behind(']', t);
    } else {
      var open, close := NewLine(style, level + 1), NewLine(style, level);
      LayoutIsWs(style, level);
      LayoutIsWs(style, level + 1);
      var body := DumpItems(items, style, level + 1);
      var rest := body + (close + "]" + t);
      BracketText('[', open, body, close, ']', t);
      SkipsWs(open, rest);
      DumpStart(items[0], style, level + 1);
      assert rest[0] == Dump(items[0], style, level + 1)[0];
      ItemsSkip(open, rest);
      ReadsItems(items, style, level + 1, close, t);
      ArrayOf(open + rest, items, t);
    }
  }

  lemma {:induction false} ReadsObject(fields: seq<Field>, style: Style, level: nat, t: string)
    requires WellFormed(Obj(fields))
    ensures ParseValue(Dump(Obj(fields), style, level) + t) == Some((Obj(fields), t))
    decreases fields, 2
  {
    if fields == [] {
      Assoc("{", "}", t);
      Behind('{', "}" + t);
      Behind('}', t);
    } else {
      var open, close := NewLine(style, level + 1), NewLine(style, level);
      LayoutIsWs(style, level);
      LayoutIsWs(style, level + 1);
      var body := DumpFields(fields, style, level + 1);
      var rest := body + (close + "}" + t);
      BracketText('{', open, body, close, '}', t);
      SkipsWs(open, rest);
      FieldsStart(fields, style, level + 1, close + "}" + t);
      FieldsSkip(open, rest);
      ReadsFields(fields, style, level + 1, close, t);
      ObjectOf(open + rest, fields, t);
    }
  }

  lemma ItemsOf(x: string, v: Json, y: string, vs: seq<Json>, t: string)
    requires ParseValue(x) == Some((v, "," + y)) && ParseItems(y) == Some((vs, t))
    ensures ParseItems(x) == Some(([v] + vs, t))
  {
    Behind(',', y);
  }

  lemma LastItemOf(x: string, v: Json, close: string, t: string)
    requires ParseValue(x) == Some((v, close + "]" + t)) && AllWs(close)
    ensures ParseItems(x) == Some(([v], t))
  {
    CloseStops(close, ']', t);
  }

  lemma ItemsText(items: seq<Json>, style: Style, level: nat)
    requires items != []
    ensures DumpItems(items, style, level)
            == if |items| == 1 then Dump(items[0], style, level)
               else Dump(items[0], style, level)
                    + ("," + AfterComma(style, level) + DumpItems(items[1..], style, level))
  {
    assert |items| == 1 ==> Dump(items[0], style, level) + "" == Dump(items[0], style, level);
  }

  lemma ItemAndRest(head: string, gap: string, more: string, last: string, v: Json, rest: seq<Json>, t: string)
    requires AllWs(gap) && ParseItems(more + last) == Some((rest, t))
    requires ParseValue(head + ("," + (gap + (more + last)))) == Some((v, "," + (gap + (more + last))))
    ensures ParseItems((head + ("," + gap + more)) + last) == Some(([v] + rest, t))
  {
    CommaText(head, gap, more, last);
    ItemsSkip(gap, more + last);
    ItemsOf(head + ("," + (gap + (more + last))), v, gap + (more + last), rest, t);
  }

  lemma OneItemReads(v: Json, style: Style, level: nat, close: string, t: string)
    requires AllWs(close) && ParseValue(Dump(v, style, level) + (close + "]" + t)) == Some((v, close + "]" + t))
    ensures ParseItems(DumpItems([v], style, level) + (close + "]" + t)) == Some(([v], t))
  {
    ItemsText([v], style, level);
    LastItemOf(Dump(v, style, level) + (close + "]" + t), v, close, t);
  }

  lemma MoreItemsRead(v: Json, rest: seq<Json>, style: Style, level: nat, last: string, t: string)
    requires rest != [] && ParseItems(DumpItems(rest, style, level) + last) == Some((rest, t))
    requires var next := AfterComma(style, level) + (DumpItems(rest, style, level) + last);
             ParseValue(Dump(v, style, level) + ("," + next)) == Some((v, "," + next))
    ensures ParseItems(DumpItems([v] + rest, style, level) + last) == Some(([v] + rest, t))
  {
    ItemsText([v] + rest, style, level);
    assert ([v] + rest)[1..] == rest;
    LayoutIsWs(style, level);
    var gap, more := AfterComma(style, level), DumpItems(rest, style, level);
    ItemAndRest(Dump(v, style, level), gap, more, last, v, rest, t);
  }

  lemma CommaStops(s: string)
    ensures Stops("," + s)
  {
  }

  lemma {:induction false} ReadsItems(
      items: seq<Json>, style: Style, level: nat, close: string, t: string)
    requires items != [] && AllWs(close)
    requires forall i | 0 <= i < |items| :: WellFormed(items[i])
    ensures ParseItems(DumpItems(items, style, level) + (close + "]" + t)) == Some((items, t))
    decreases items, 0
  {
    var v, rest, last := items[0], items[1..], close + "]" + t;
    if rest == [] {
      assert items == [v];
      CloseStops(close, ']', t);
      ReadsValue(v, style, level, last);
      OneItemReads(v, style, level, close, t);
    } else {
      assert items == [v] + rest;
      var next := AfterComma(style, level) + (DumpItems(rest, style, level) + last);
      CommaStops(next);
      ReadsValue(v, style, level, "," + next);
      ReadsItems(rest, style, level, close, t);
      MoreItemsRead(v, rest, style, level, last, t);
    }
  }

  lemma {:induction false} ReadsField(f: Field, style: Style, level: nat, t: string)
    requires WellFormed(f.value) && Stops(t)
    ensures ParseField(FieldHead(f, style, level) + t) == Some((f, t))
    decreases f, 0
  {
    var d := Dump(f.value, style, level);
    FieldText(f.name, d, t);
    ReadsValue(f.value, style, level, t);
    ValueSkips(" ", d + t);
    FieldOf(f.name, " " + (d + t), f.value, t);
  }

  lemma LastFieldOf(x: string, f: Field, close: string, t: string)
    requires ParseField(x) == Some((f, close + "}" + t)) && AllWs(close)
    ensures ParseFields(x) == Some(([f], t))
  {
    CloseStops(close, '}', t);
  }

  /** A first field that reads, and the rest of them. */
  lemma FieldAndRest(
      head: string, gap: string, more: string, last: string, f: Field, rest: seq<Field>, t: string)
    requires AllWs(gap) && ParseFields(more + last) == Some((rest, t))
    requires ParseField(head + ("," + (gap + (more + last)))) == Some((f, "," + (gap + (more + last))))
    ensures ParseFields((head + ("," + gap + more)) + last) == Some(([f] + rest, t))
  {
    CommaText(head, gap, more, last);
    FieldsSkip(gap, more + last);
    FieldsOf(head + ("," + (gap + (more + last))), f, gap + (more + last), rest, t);
  }

  lemma FieldsText(fields: seq<Field>, style: Style, level: nat)
    requires fields != []
    ensures DumpFields(fields, style, level)
            == if |fields| == 1 then FieldHead(fields[0], style, level)
               else FieldHead(fields[0], style, level)
                    + ("," + AfterComma(style, level) + DumpFields(fields[1..], style, level))
  {
    assert |fields| == 1 ==> FieldHead(fields[0], style, level) + "" == FieldHead(fields[0], style, level);
  }

  lemma OneFieldReads(f: Field, style: Style, level: nat, close: string, t: string)
    requires AllWs(close) && ParseField(FieldHead(f, style, level) + (close + "}" + t)) == Some((f, close + "}" + t))
    ensures ParseFields(DumpFields([f], style, level) + (close + "}" + t)) == Some(([f], t))
  {
    FieldsText([f], style, level);
    LastFieldOf(FieldHead(f, style, level) + (close + "}" + t), f, close, t);
  }

  lemma MoreFieldsRead(f: Field, rest: seq<Field>, style: Style, level: nat, last: string, t: string)
    requires rest != [] && ParseFields(DumpFields(rest, style, level) + last) == Some((rest, t))
    requires var next := AfterComma(style, level) + (DumpFields(rest, style, level) + last);
             ParseField(FieldHead(f, style, level) + ("," + next)) == Some((f, "," + next))
    ensures ParseFields(DumpFields([f] + rest, style, level) + last) == Some(([f] + rest, t))
  {
    FieldsText([f] + rest, style, level);
    assert ([f] + rest)[1..] == rest;
    LayoutIsWs(style, level);
    var gap, more := AfterComma(style, level), DumpFields(rest, style, level);
    FieldAndRest(FieldHead(f, style, level), gap, more, last, f, rest, t);
  }

  lemma {:induction false} ReadsFields(
      fields: seq<Field>, style: Style, level: nat, close: string, t: string)
    requires fields != [] && AllWs(close)
    requires forall i | 0 <= i < |fields| :: WellFormed(fields[i].value)
    ensures ParseFields(DumpFields(fields, style, level) + (close + "}" + t)) == Some((fields, t))
    decreases fields, 0
  {
    var f, rest, last := fields[0], fields[1..], close + "}" + t;
    if rest == [] {
      assert fields == [f];
      CloseStops(close, '}', t);
      ReadsField(f, style, level, last);
      OneFieldReads(f, style, level, close, t);
    } else {
      assert fields == [f] + rest;
      var next := AfterComma(style, level) + (DumpFields(rest, style, level) + last);
      CommaStops(next);
      ReadsField(f, style, level, "," + next);
      ReadsFields(rest, style, level, close, t);
      MoreFieldsRead(f, rest, style, level, last, t);
    }
  }

  /** `json.loads(json.dumps(v)) == v`, in either layout. */
  lemma LoadsDump(v: Json, style: Style)
    requires WellFormed(v)
    ensures Loads(Dump(v, style, 0)) == Some(v)
  {
    ReadsValue(v, style, 0, "");
    assert Dump(v, style, 0) + "" == Dump(v, style, 0);
  }
}
