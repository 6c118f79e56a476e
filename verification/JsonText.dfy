/**
 What printed JSON looks like as text: which line breaks it can hold, where a new line
 can begin, and that no part of a printed record is itself a record.
 */
module JsonText {
  import opened Wrappers
  import opened Lines
  import opened Json

  /** The line breaks `json.dumps(ensure_ascii=False)` leaves raw: U+0085, U+2028, U+2029. */
  predicate RawBreak(c: char) { IsBreak(c) && c >= ' ' }

  predicate CleanText(s: string) {
    forall i | 0 <= i < |s| :: !RawBreak(s[i])
  }

  /** No string in the value, name or content, holds a break that would be printed raw. */
  predicate Clean(v: Json) {
    match v
    case Str(s) => CleanText(s)
    case Arr(items) => forall i | 0 <= i < |items| :: Clean(items[i])
    case Obj(fields) =>
      forall i | 0 <= i < |fields| :: CleanText(fields[i].name) && Clean(fields[i].value)
    case _ => true
  }

  /** Printed on one line, a record holds no control character at all. */
  predicate Printable(s: string) {
    forall i | 0 <= i < |s| :: s[i] >= ' '
  }

  /** `Printable`, and free of line breaks exactly when `clean`. */
  predicate Printed(s: string, clean: bool) {
    Printable(s) && (NoBreak(s) <==> clean)
  }

  lemma PrintedBoth(a: string, b: string, x: bool, y: bool)
    requires Printed(a, x) && Printed(b, y)
    ensures Printed(a + b, x && y)
  {
    var s := a + b;
    if NoBreak(s) {
      assert forall i | 0 <= i < |a| :: a[i] == s[i];
      assert forall i | 0 <= i < |b| :: b[i] == s[|a| + i];
    }
  }

  lemma {:induction false} EscapePrinted(s: string)
    ensures Printed(Escape(s), CleanText(s))
  {
    if s != "" {
      EscapePrinted(s[1..]);
      var e := EscapeChar(s[0]);
      assert RawBreak(s[0]) ==> e == [s[0]];
      assert Printed(e, !RawBreak(s[0]));
      PrintedBoth(e, Escape(s[1..]), !RawBreak(s[0]), CleanText(s[1..]));
      assert CleanText(s) <==> !RawBreak(s[0]) && CleanText(s[1..]) by {
        assert s == [s[0]] + s[1..];
      }
    }
  }

  lemma QuotePrinted(s: string)
    ensures Printed(Quote(s), CleanText(s))
  {
    EscapePrinted(s);
    PrintedBoth("\"", Escape(s), true, CleanText(s));
    PrintedBoth("\"" + Escape(s), "\"", CleanText(s), true);
  }

  lemma BracketPrinted(open: char, body: string, close: char, clean: bool)
    requires Printed(body, clean) && Printed([open], true) && Printed([close], true)
    ensures Printed([open] + "" + body + "" + [close], clean)
  {
    PrintedBoth([open], body, true, clean);
    PrintedBoth([open] + body, [close], clean, true);
    assert [open] + "" + body + "" + [close] == [open] + body + [close];
  }

  lemma NumberPrinted(token: string)
    requires forall i | 0 <= i < |token| :: NumChar(token[i])
    ensures Printed(token, true)
  {
  }

  lemma {:induction false} DumpPrinted(v: Json, level: nat)
    requires WellFormed(v)
    ensures Printed(Dump(v, Compact, level), Clean(v))
    decreases v, 1
  {
    match v {
      case Str(s) => QuotePrinted(s);
      case Num(token) => NumberPrinted(token);
      case Arr(items) =>
        if items != [] {
          ItemsPrinted(items, level + 1);
          BracketPrinted('[', DumpItems(items, Compact, level + 1), ']', Clean(v));
        }
      case Obj(fields) =>
        if fields != [] {
          FieldsPrinted(fields, level + 1);
          BracketPrinted('{', DumpFields(fields, Compact, level + 1), '}', Clean(v));
        }
      case _ =>
    }
  }

  lemma {:induction false} ItemsPrinted(items: seq<Json>, level: nat)
    requires items != [] && forall i | 0 <= i < |items| :: WellFormed(items[i])
    ensures Printed(DumpItems(items, Compact, level), Clean(Arr(items)))
    decreases items, 0
  {
    DumpPrinted(items[0], level);
    var d := Dump(items[0], Compact, level);
    if |items| == 1 {
      assert d + "" == d;
      assert Clean(Arr(items)) <==> Clean(items[0]);
    } else {
      ItemsPrinted(items[1..], level);
      var rest := DumpItems(items[1..], Compact, level);
      var clean := Clean(Arr(items[1..]));
      PrintedBoth("," + " ", rest, true, clean);
      PrintedBoth(d, "," + " " + rest, Clean(items[0]), clean);
      assert items == [items[0]] + items[1..];
      assert Clean(Arr(items)) <==> Clean(items[0]) && clean;
    }
  }

  lemma {:induction false} FieldsPrinted(fields: seq<Field>, level: nat)
    requires fields != [] && forall i | 0 <= i < |fields| :: WellFormed(fields[i].value)
    ensures Printed(DumpFields(fields, Compact, level), Clean(Obj(fields)))
    decreases fields, 0
  {
    var f := fields[0];
    var one := CleanText(f.name) && Clean(f.value);
    QuotePrinted(f.name);
    DumpPrinted(f.value, level);
    PrintedBoth(Quote(f.name), ": ", CleanText(f.name), true);
    PrintedBoth(Quote(f.name) + ": ", Dump(f.value, Compact, level), CleanText(f.name), Clean(f.value));
    var d := Quote(f.name) + ": " + Dump(f.value, Compact, level);
    if |fields| == 1 {
      assert d + "" == d;
      assert Clean(Obj(fields)) <==> one;
    } else {
      FieldsPrinted(fields[1..], level);
      var rest := DumpFields(fields[1..], Compact, level);
      var clean := Clean(Obj(fields[1..]));
      PrintedBoth("," + " ", rest, true, clean);
      PrintedBoth(d, "," + " " + rest, one, clean);
      assert fields == [f] + fields[1..];
      assert Clean(Obj(fields)) <==> one && clean;
    }
  }

  // ------------------------------------------------ where a new line can begin

  /** Every newline is followed, inside the text, by something other than a backtick. */
  predicate NoFence(s: string) {
    forall i | 0 <= i < |s| && s[i] == '\n' :: i + 1 < |s| && s[i + 1] != '`'
  }

  lemma NoFenceBoth(a: string, b: string)
    requires NoFence(a) && NoFence(b)
    ensures NoFence(a + b)
  {
    var s := a + b;
    forall i | 0 <= i < |s| && s[i] == '\n' ensures i + 1 < |s| && s[i + 1] != '`' {
      if i >= |a| { assert b[i - |a|] == '\n'; }
    }
  }

  lemma NoFenceAfterLayout(layout: string, t: string)
    requires forall i | 0 <= i < |layout| :: layout[i] == '\n' || layout[i] == ' '
    requires NoFence(t) && t != "" && t[0] != '`'
    ensures NoFence(layout + t)
  {
    var s := layout + t;
    forall i | 0 <= i < |s| && s[i] == '\n' ensures i + 1 < |s| && s[i + 1] != '`' {
      if i >= |layout| { assert t[i - |layout|] == '\n'; }
    }
  }

  lemma QuoteNoFence(s: string)
    ensures NoFence(Quote(s))
  {
    QuotePrinted(s);
  }

  lemma DumpStartsBare(v: Json, style: Style, level: nat)
    requires WellFormed(v)
    ensures var d := Dump(v, style, level); d != "" && d[0] != '`'
  {
    if v.Num? { NumberStart(v.token); }
  }

  lemma BracketNoFence(open: char, a: string, body: string, b: string, close: char)
    requires open != '\n' && close != '\n' && close != '`'
    requires forall i | 0 <= i < |a| :: a[i] == '\n' || a[i] == ' '
    requires forall i | 0 <= i < |b| :: b[i] == '\n' || b[i] == ' '
    requires NoFence(body) && body != "" && body[0] != '`'
    ensures NoFence([open] + a + body + b + [close])
  {
    NoFenceAfterLayout(a, body);
    NoFenceAfterLayout(b, [close]);
    NoFenceBoth([open], a + body);
    NoFenceBoth([open] + (a + body), b + [close]);
    assert [open] + a + body + b + [close] == [open] + (a + body) + (b + [close]);
  }

  lemma CommaNoFence(d: string, gap: string, rest: string)
    requires NoFence(d) && d != "" && d[0] != '`'
    requires forall i | 0 <= i < |gap| :: gap[i] == '\n' || gap[i] == ' '
    requires NoFence(rest) && rest != "" && rest[0] != '`'
    ensures var s := d + ("," + gap + rest); NoFence(s) && s != "" && s[0] != '`'
  {
    NoFenceAfterLayout(gap, rest);
    NoFenceBoth(d, ",");
    NoFenceBoth(d + ",", gap + rest);
    assert d + ("," + gap + rest) == d + "," + (gap + rest);
  }

  lemma {:induction false} DumpNoFence(v: Json, style: Style, level: nat)
    requires WellFormed(v)
    ensures NoFence(Dump(v, style, level))
    decreases v, 1
  {
    match v {
      case Str(s) => QuoteNoFence(s);
      case Arr(items) =>
        if items != [] {
          ItemsNoFence(items, style, level + 1);
          BracketNoFence('[', NewLine(style, level + 1), DumpItems(items, style, level + 1),
                         NewLine(style, level), ']');
        }
      case Obj(fields) =>
        if fields != [] {
          FieldsNoFence(fields, style, level + 1);
          BracketNoFence('{', NewLine(style, level + 1), DumpFields(fields, style, level + 1),
                         NewLine(style, level), '}');
        }
      case _ =>
    }
  }

  lemma {:induction false} ItemsNoFence(items: seq<Json>, style: Style, level: nat)
    requires items != [] && forall i | 0 <= i < |items| :: WellFormed(items[i])
    ensures var d := DumpItems(items, style, level); NoFence(d) && d != "" && d[0] != '`'
    decreases items, 0
  {
    var d := Dump(items[0], style, level);
    DumpNoFence(items[0], style, level);
    DumpStartsBare(items[0], style, level);
    if |items| == 1 {
      assert d + "" == d;
    } else {
      ItemsNoFence(items[1..], style, level);
      CommaNoFence(d, AfterComma(style, level), DumpItems(items[1..], style, level));
    }
  }

  lemma FieldNoFence(f: Field, d: string)
    requires NoFence(d)
    ensures var s := Quote(f.name) + ": " + d; NoFence(s) && s != "" && s[0] != '`'
  {
    QuoteNoFence(f.name);
    NoFenceBoth(Quote(f.name), ": ");
    NoFenceBoth(Quote(f.name) + ": ", d);
    assert Quote(f.name)[0] == '"';
  }

  lemma {:induction false} FieldsNoFence(fields: seq<Field>, style: Style, level: nat)
    requires fields != [] && forall i | 0 <= i < |fields| :: WellFormed(fields[i].value)
    ensures var d := DumpFields(fields, style, level); NoFence(d) && d != "" && d[0] != '`'
    decreases fields, 0
  {
    var f := fields[0];
    var d := Quote(f.name) + ": " + Dump(f.value, style, level);
    DumpNoFence(f.value, style, level);
    FieldNoFence(f, Dump(f.value, style, level));
    if |fields| == 1 {
      assert d + "" == d;
    } else {
      FieldsNoFence(fields[1..], style, level);
      CommaNoFence(d, AfterComma(style, level), DumpFields(fields[1..], style, level));
    }
  }

  // --------------------------------------- a parser never needs what comes later

  lemma {:induction false} SkipGrows(s: string, t: string)
    requires SkipWs(s) != ""
    ensures SkipWs(s + t) == SkipWs(s) + t
  {
    if IsWs(s[0]) {
      assert (s + t)[1..] == s[1..] + t;
      SkipGrows(s[1..], t);
    }
  }

  lemma {:induction false} StringGrows(s: string, t: string)
    requires ParseString(s).Some?
    ensures ParseString(s + t) == Some((ParseString(s).value.0, ParseString(s).value.1 + t))
    decreases |s|
  {
    if s[0] == '"' {
      assert (s + t)[1..] == s[1..] + t;
    } else {
      UnitGrows(s, t);
      StringGrows(ParseUnit(s).value.1, t);
    }
  }

  lemma UnitGrows(s: string, t: string)
    requires ParseUnit(s).Some?
    ensures ParseUnit(s + t) == Some((ParseUnit(s).value.0, ParseUnit(s).value.1 + t))
  {
    assert (s + t)[1..] == s[1..] + t;
    if s[0] == '\\' {
      var e := s[1..];
      assert (e + t)[1..] == e[1..] + t;
      if |e| >= 5 { assert (e + t)[5..] == e[5..] + t; }
    }
  }

  lemma {:induction false} NumRunGrows(s: string, t: string)
    requires NumRun(s) < |s|
    ensures NumRun(s + t) == NumRun(s)
  {
    if NumChar(s[0]) {
      assert (s + t)[1..] == s[1..] + t;
      NumRunGrows(s[1..], t);
    }
  }

  lemma Grown(u: string, t: string)
    requires u != ""
    ensures u + t != "" && (u + t)[0] == u[0] && (u + t)[1..] == u[1..] + t
  {
  }

  /**
   What was parsed stays parsed when more text follows: only a number at the very end
   of the text could have gone on.
   */
  lemma {:induction false} ValueGrows(s: string, t: string)
    requires ParseValue(s).Some?
    requires ParseValue(s).value.1 != "" || !ParseValue(s).value.0.Num?
    ensures ParseValue(s + t) == Some((ParseValue(s).value.0, ParseValue(s).value.1 + t))
    decreases |s|, 0
  {
    var u := SkipWs(s);
    SkipGrows(s, t);
    SkipIdempotent(s);
    Grown(u, t);
    if u[0] == '"' {
      StringGrows(u[1..], t);
    } else if u[0] == '[' {
      ArrayGrows(u[1..], t);
    } else if u[0] == '{' {
      ObjectGrows(u[1..], t);
    } else {
      ScalarGrows(u, t);
      assert ParseValue(s) == ParseValue(u);
      assert SkipWs(u + t) == u + t;
      assert ParseValue(s + t) == ParseValue(u + t);
    }
  }

  lemma StillStarts(u: string, t: string, word: string)
    requires Starts(u, word)
    ensures Starts(u + t, word) && (u + t)[|word|..] == u[|word|..] + t
  {
    assert (u + t)[..|word|] == u[..|word|];
  }

  lemma NumberGrows(u: string, t: string)
    requires ParseNumber(u).Some? && ParseNumber(u).value.1 != ""
    ensures ParseNumber(u + t) == Some((ParseNumber(u).value.0, ParseNumber(u).value.1 + t))
    ensures NumChar(u[0])
  {
    var n := NumRun(u);
    NumRunGrows(u, t);
    assert u == u[..n] + u[n..];
    NumberAt(u + t, u[..n], u[n..] + t);
  }

  lemma ScalarGrows(u: string, t: string)
    requires u != "" && !IsWs(u[0]) && u[0] != '"' && u[0] != '[' && u[0] != '{'
    requires ParseValue(u).Some?
    requires ParseValue(u).value.1 != "" || !ParseValue(u).value.0.Num?
    ensures ParseValue(u + t) == Some((ParseValue(u).value.0, ParseValue(u).value.1 + t))
  {
    ScalarStart(u);
    ScalarStart(u + t);
    if Starts(u, "null") {
      StillStarts(u, t, "null");
    } else if Starts(u, "true") {
      StillStarts(u, t, "true");
      assert (u + t)[0] == 't';
    } else if Starts(u, "false") {
      StillStarts(u, t, "false");
      assert (u + t)[0] == 'f';
    } else {
      NumberGrows(u, t);
      NumberFirst(u + t);
    }
  }

  lemma {:induction false} ArrayGrows(s: string, t: string)
    requires ParseArray(s).Some?
    ensures ParseArray(s + t) == Some((ParseArray(s).value.0, ParseArray(s).value.1 + t))
    decreases |s|, 2
  {
    var u := SkipWs(s);
    assert u == "" ==> ParseValue(s) == None;
    SkipGrows(s, t);
    Grown(u, t);
    if u[0] != ']' {
      ItemsGrow(s, t);
    }
  }

  lemma {:induction false} ItemsGrow(s: string, t: string)
    requires ParseItems(s).Some?
    ensures ParseItems(s + t) == Some((ParseItems(s).value.0, ParseItems(s).value.1 + t))
    decreases |s|, 1
  {
    var (v, rest) := ParseValue(s).value;
    var u := SkipWs(rest);
    ItemsAfterGrows(v, u, t);
    SkipGrows(rest, t);
    ValueGrows(s, t);
  }

  lemma {:induction false} ItemsAfterGrows(v: Json, u: string, t: string)
    requires ItemsAfter(v, u).Some?
    ensures ItemsAfter(v, u + t) == Some((ItemsAfter(v, u).value.0, ItemsAfter(v, u).value.1 + t))
    decreases |u|, 0
  {
    Grown(u, t);
    if u[0] == ',' {
      ItemsGrow(u[1..], t);
    }
  }

  lemma {:induction false} ObjectGrows(s: string, t: string)
    requires ParseObject(s).Some?
    ensures ParseObject(s + t) == Some((ParseObject(s).value.0, ParseObject(s).value.1 + t))
    decreases |s|, 2
  {
    var u := SkipWs(s);
    assert u == "" ==> ParseField(s) == None;
    SkipGrows(s, t);
    Grown(u, t);
    if u[0] != '}' {
      FieldsGrow(s, t);
    }
  }

  lemma {:induction false} FieldsGrow(s: string, t: string)
    requires ParseFields(s).Some?
    ensures ParseFields(s + t) == Some((ParseFields(s).value.0, ParseFields(s).value.1 + t))
    decreases |s|, 1
  {
    var (f, rest) := ParseField(s).value;
    var u := SkipWs(rest);
    FieldsAfterGrows(f, u, t);
    SkipGrows(rest, t);
    FieldGrows(s, t);
  }

  lemma {:induction false} FieldsAfterGrows(f: Field, u: string, t: string)
    requires FieldsAfter(f, u).Some?
    ensures FieldsAfter(f, u + t) == Some((FieldsAfter(f, u).value.0, FieldsAfter(f, u).value.1 + t))
    decreases |u|, 0
  {
    Grown(u, t);
    if u[0] == ',' {
      FieldsGrow(u[1..], t);
    }
  }

  lemma {:induction false} FieldGrows(s: string, t: string)
    requires ParseField(s).Some? && ParseField(s).value.1 != ""
    ensures ParseField(s + t) == Some((ParseField(s).value.0, ParseField(s).value.1 + t))
    decreases |s|, 0
  {
    var u := SkipWs(s);
    SkipGrows(s, t);
    Grown(u, t);
    StringGrows(u[1..], t);
    var rest := ParseString(u[1..]).value.1;
    var x := SkipWs(rest);
    SkipGrows(rest, t);
    Grown(x, t);
    ValueGrows(x[1..], t);
  }

  /** No proper part of a printed object, from its start, is itself JSON. */
  lemma NoPartIsARecord(fields: seq<Field>, style: Style, a: string, b: string)
    requires WellFormed(Obj(fields))
    requires Dump(Obj(fields), style, 0) == a + b && a != "" && b != ""
    ensures Loads(a) == None
  {
    var d := Dump(Obj(fields), style, 0);
    if Loads(a).Some? {
      assert a[0] == d[0] == '{';
      ValueGrows(a, b);
      LoadsWhole(Obj(fields), style);
    }
  }

  lemma LoadsWhole(v: Json, style: Style)
    requires WellFormed(v)
    ensures ParseValue(Dump(v, style, 0)) == Some((v, ""))
  {
    ReadsValue(v, style, 0, "");
    assert Dump(v, style, 0) + "" == Dump(v, style, 0);
  }
}
