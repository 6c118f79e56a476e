/**
 The fenced block a producer's findings travel in: how it is written, how it is found again,
 and why nothing inside it can end it early.
 */
module FindingsBlocks {
  import opened Wrappers
  import opened Lines
  import opened Json
  import opened JsonText

  /** The two info strings; only the second may carry a cross-source claim. */
  datatype Fence = V1 | V2

  function Name(f: Fence): string {
    if f == V1 then "atlas-findings" else "atlas-findings.v2"
  }

  function Opening(f: Fence): string {
    "```" + Name(f)
  }

  datatype Found = Found(fence: Fence, body: string)

  // --------------------------------------------- ^```(name|name.v2)\s*\n(.*?)\n^```

  function SpaceRun(s: string): (n: nat)
    ensures n <= |s|
  {
    if s == "" || !IsSpace(s[0]) then 0 else 1 + SpaceRun(s[1..])
  }

  /** A newline with a fence right after it. */
  predicate Closes(s: string, e: nat) {
    e < |s| && s[e] == '\n' && Starts(s[e + 1..], "```")
  }

  /** The lazy body: it ends at the first place it can. */
  function BodyEnd(s: string, from: nat): (e: Option<nat>)
    ensures e.Some? ==> from <= e.value < |s| && Closes(s, e.value)
    decreases |s| - from
  {
    if from >= |s| then None
    else if Closes(s, from) then Some(from)
    else BodyEnd(s, from + 1)
  }

  /** The greedy `\s*` gives back characters until a newline and a body can follow it. */
  function BodyAfter(s: string, from: nat, to: nat): Option<string>
    requires from <= to <= |s|
  {
    if to == from then None
    else if s[to - 1] == '\n' && BodyEnd(s, to).Some? then Some(s[to..BodyEnd(s, to).value])
    else BodyAfter(s, from, to - 1)
  }

  function MatchFence(s: string, f: Fence): Option<Found> {
    var n := |Opening(f)|;
    if !Starts(s, Opening(f)) then None
    else
      var body := BodyAfter(s, n, n + SpaceRun(s[n..]));
      if body.Some? then Some(Found(f, body.value)) else None
  }

  /** A match that begins here: the first name is tried first. */
  function MatchHere(s: string): Option<Found> {
    if MatchFence(s, V1).Some? then MatchFence(s, V1) else MatchFence(s, V2)
  }

  /** The leftmost match that begins a line. */
  function Search(s: string, atLineStart: bool): Option<Found> {
    if s == "" then None
    else if atLineStart && MatchHere(s).Some? then MatchHere(s)
    else Search(s[1..], s[0] == '\n')
  }

  /** The findings a text declares, when it carries a block that parses. */
  function Declared(text: string): Option<Json> {
    var found := Search(text, true);
    if found.None? then None else Loads(found.value.body)
  }

  // -------------------------------------------------------------------- writing

  function PrintedFindings(findings: seq<Json>): string {
    Dump(Arr(findings), Indented(2), 0)
  }

  function RenderBlock(f: Fence, findings: seq<Json>): string {
    Opening(f) + "\n" + PrintedFindings(findings) + "\n```"
  }

  function RenderOutput(report: string, findings: seq<Json>): string {
    RStrip(report) + "\n\n" + RenderBlock(V1, findings)
  }

  // ----------------------------------------------------------------- round trip

  lemma {:induction false} FirstClose(s: string, from: nat, e: nat)
    requires from <= e && Closes(s, e)
    requires forall k | from <= k < e :: !Closes(s, k)
    ensures BodyEnd(s, from) == Some(e)
    decreases e - from
  {
    if from < e { FirstClose(s, from + 1, e); }
  }

  /** A fence cannot open inside text where every newline is followed by something else. */
  lemma NotYet(s: string, k: nat)
    requires k + 1 < |s| && (s[k] == '\n' ==> s[k + 1] != '`')
    ensures !Closes(s, k)
  {
    if s[k] == '\n' { assert s[k + 1..][0] == s[k + 1]; }
  }

  lemma BodyEndsAt(s: string, from: nat, e: nat)
    requires from <= e < |s| && Closes(s, e)
    requires forall k | from <= k < e && s[k] == '\n' :: k + 1 < e && s[k + 1] != '`'
    ensures BodyEnd(s, from) == Some(e)
  {
    forall k | from <= k < e ensures !Closes(s, k) { NotYet(s, k); }
    FirstClose(s, from, e);
  }

  lemma ClosesAt(s: string, e: nat, rest: string)
    requires e <= |s| && s[e..] == rest && Starts(rest, "\n```")
    ensures Closes(s, e)
  {
    assert s[e] == rest[0] && s[e + 1..] == rest[1..];
    assert rest[..4][1..] == rest[1..][..3] && "\n```"[1..] == "```";
  }

  /** A body in which no newline is followed by a backtick ends where it was ended. */
  lemma BodyIsWhole(a: string, body: string, rest: string)
    requires NoFence(body) && Starts(rest, "\n```")
    ensures BodyEnd(a + body + rest, |a|) == Some(|a| + |body|)
    ensures (a + body + rest)[|a|..|a| + |body|] == body
  {
    var s := a + body + rest;
    var e := |a| + |body|;
    assert s[e..] == rest;
    ClosesAt(s, e, rest);
    assert forall k | 0 <= k < |body| :: s[|a| + k] == body[k];
    forall k | |a| <= k < e && s[k] == '\n' ensures k + 1 < e && s[k + 1] != '`' {
      assert body[k - |a|] == '\n';
      assert body[k - |a| + 1] == s[k + 1];
    }
    BodyEndsAt(s, |a|, e);
  }

  lemma OneNewline(body: string, rest: string)
    requires body != "" && !IsSpace(body[0])
    ensures SpaceRun("\n" + body + rest) == 1
  {
    var s := "\n" + body + rest;
    assert s[1..] == body + rest;
  }

  lemma FenceMatches(f: Fence, body: string, rest: string)
    requires body != "" && !IsSpace(body[0]) && NoFence(body) && Starts(rest, "\n```")
    ensures MatchFence(Opening(f) + "\n" + body + rest, f) == Some(Found(f, body))
  {
    var n := |Opening(f)|;
    var head := Opening(f) + "\n";
    var s := head + body + rest;
    assert s[..n] == Opening(f);
    assert s[n..] == "\n" + body + rest;
    OneNewline(body, rest);
    BodyIsWhole(head, body, rest);
    assert s[n + 1 - 1] == '\n';
  }

  /** The longer name begins with the shorter, which then finds no white space after it. */
  lemma ShorterNameFails(t: string)
    ensures MatchFence(Opening(V2) + t, V1) == None
  {
    var s := Opening(V2) + t;
    var n := |Opening(V1)|;
    assert s[n] == '.';
    assert s[n..][0] == '.';
    assert SpaceRun(s[n..]) == 0;
  }

  lemma Regroup(a: string, b: string, c: string, d: string)
    ensures a + b + c + d == a + (b + c + d)
  {
  }

  lemma BlockMatches(f: Fence, body: string, rest: string)
    requires body != "" && !IsSpace(body[0]) && NoFence(body) && Starts(rest, "\n```")
    ensures MatchHere(Opening(f) + "\n" + body + rest) == Some(Found(f, body))
  {
    FenceMatches(f, body, rest);
    if f == V2 {
      Regroup(Opening(V2), "\n", body, rest);
      ShorterNameFails("\n" + body + rest);
    }
  }

  lemma PrintedIsABody(findings: seq<Json>)
    requires WellFormed(Arr(findings))
    ensures var body := PrintedFindings(findings); body != "" && body[0] == '[' && !IsSpace(body[0]) && NoFence(body)
    ensures Loads(PrintedFindings(findings)) == Some(Arr(findings))
  {
    DumpNoFence(Arr(findings), Indented(2), 0);
    LoadsDump(Arr(findings), Indented(2));
  }

  /**
   Whatever the findings hold, the block they are written in is found again, whole, and reads
   back as those findings; what follows the block does not matter.
   */
  lemma BlockRoundTrip(f: Fence, findings: seq<Json>, rest: string)
    requires WellFormed(Arr(findings))
    ensures Search(RenderBlock(f, findings) + rest, true) == Some(Found(f, PrintedFindings(findings)))
    ensures Declared(RenderBlock(f, findings) + rest) == Some(Arr(findings))
  {
    PrintedIsABody(findings);
    var body := PrintedFindings(findings);
    var s := RenderBlock(f, findings) + rest;
    assert s == Opening(f) + "\n" + body + ("\n```" + rest);
    assert Starts("\n```" + rest, "\n```") by { assert ("\n```" + rest)[..4] == "\n```"; }
    BlockMatches(f, body, "\n```" + rest);
    assert s != "";
  }

  // ------------------------------------------------------------ text before the block

  /** No line of this text begins like a findings fence. */
  predicate NoOpening(s: string, atLineStart: bool) {
    s == "" || (!(atLineStart && Starts(s, Opening(V1))) && NoOpening(s[1..], s[0] == '\n'))
  }

  lemma OpeningWithin(a: string, t: string)
    requires a != "" && a[|a| - 1] == '\n' && Starts(a + t, Opening(V1))
    ensures Starts(a, Opening(V1))
  {
    var n := |Opening(V1)|;
    var open := Opening(V1);
    assert forall k | 0 <= k < n :: open[k] != '\n';
    assert (a + t)[|a| - 1] == '\n';
    assert forall k | 0 <= k < n :: (a + t)[k] == (a + t)[..n][k];
    assert |a| >= n;
    assert a[..n] == (a + t)[..n];
  }

  lemma LongerOpening(s: string)
    requires Starts(s, Opening(V2))
    ensures Starts(s, Opening(V1))
  {
    var n := |Opening(V1)|;
    assert Opening(V2)[..n] == Opening(V1);
    assert s[..n] == s[..|Opening(V2)|][..n];
  }

  lemma {:induction false} SearchSkips(a: string, t: string, atLineStart: bool)
    requires a != "" && a[|a| - 1] == '\n' && NoOpening(a, atLineStart)
    ensures Search(a + t, atLineStart) == Search(t, true)
  {
    var s := a + t;
    assert s[1..] == a[1..] + t;
    if atLineStart && MatchHere(s).Some? {
      if Starts(s, Opening(V2)) { LongerOpening(s); }
      OpeningWithin(a, t);
    }
    if |a| > 1 {
      SearchSkips(a[1..], t, a[0] == '\n');
    } else {
      assert a[1..] + t == t;
    }
  }

  /** In a whole output the block is found again when no line of the report looks like one. */
  lemma OutputRoundTrip(report: string, findings: seq<Json>)
    requires WellFormed(Arr(findings)) && NoOpening(RStrip(report) + "\n\n", true)
    ensures Declared(RenderOutput(report, findings)) == Some(Arr(findings))
  {
    var a := RStrip(report) + "\n\n";
    SearchSkips(a, RenderBlock(V1, findings), true);
    BlockRoundTrip(V1, findings, "");
    assert RenderBlock(V1, findings) + "" == RenderBlock(V1, findings);
    assert RenderOutput(report, findings) == a + RenderBlock(V1, findings);
  }

  /** A report may carry a block of its own, and in a whole output that one is found first. */
  lemma ReportBlockWins(own: seq<Json>, findings: seq<Json>)
    requires WellFormed(Arr(own))
    ensures Declared(RenderOutput(RenderBlock(V1, own), findings)) == Some(Arr(own))
  {
    var report := RenderBlock(V1, own);
    assert report[|report| - 1] == '`';
    assert RStrip(report) == report;
    var rest := "\n\n" + RenderBlock(V1, findings);
    assert RenderOutput(report, findings) == report + rest;
    BlockRoundTrip(V1, own, rest);
  }

  // -------------------------------------------------------------------- envelopes

  /** `payload.get`: a name written twice keeps its last value. */
  function Get(fields: seq<Field>, name: string): Option<Json> {
    if fields == [] then None
    else if fields[|fields| - 1].name == name then Some(fields[|fields| - 1].value)
    else Get(fields[..|fields| - 1], name)
  }

  /** The caller's text, whether the wrapper held, and the block rendered from its findings. */
  datatype Envelope = Envelope(text: string, conformed: bool, block: Option<string>)

  predicate IsEnvelope(payload: Json) {
    && payload.Obj?
    && (forall i | 0 <= i < |payload.fields| ::
          payload.fields[i].name == "report" || payload.fields[i].name == "findings")
    && var report, findings := Get(payload.fields, "report"), Get(payload.fields, "findings");
       report.Some? && report.value.Str? && !Blank(report.value.s) && findings.Some? && findings.value.Arr?
  }

  function ReadEnvelope(text: string): Envelope {
    var payload := Loads(text);
    if payload.None? || !IsEnvelope(payload.value) then Envelope(text, false, None)
    else
      var report := Get(payload.value.fields, "report").value.s;
      var findings := Get(payload.value.fields, "findings").value.items;
      Envelope(RenderOutput(report, findings), true, Some(RenderBlock(V1, findings)))
  }

  /**
   What is graded from a conforming reply is its findings and nothing else: the block reads
   back as exactly the findings of the reply, whatever its report says, fences and all.
   */
  lemma FindingsComeFromFindings(text: string)
    requires ReadEnvelope(text).conformed
    ensures var e := ReadEnvelope(text);
            e.block.Some? && Declared(e.block.value) == Get(Loads(text).value.fields, "findings")
  {
    var payload := Loads(text).value;
    ParsedIsWellFormed(text);
    GetIsWellFormed(payload.fields, "findings");
    var findings := Get(payload.fields, "findings").value.items;
    BlockRoundTrip(V1, findings, "");
    assert RenderBlock(V1, findings) + "" == RenderBlock(V1, findings);
  }

  lemma {:induction false} GetIsWellFormed(fields: seq<Field>, name: string)
    requires WellFormed(Obj(fields)) && Get(fields, name).Some?
    ensures WellFormed(Get(fields, name).value)
  {
    if fields[|fields| - 1].name != name {
      var init := fields[..|fields| - 1];
      assert WellFormed(Obj(init)) by {
        assert forall i | 0 <= i < |init| :: init[i] == fields[i];
      }
      GetIsWellFormed(init, name);
    }
  }

  // ----------------------------------------------------- what parses is well formed

  lemma ParsedIsWellFormed(text: string)
    requires Loads(text).Some?
    ensures WellFormed(Loads(text).value)
  {
    ValueParses(text);
  }

  lemma {:induction false} ValueParses(s: string)
    requires ParseValue(s).Some?
    ensures WellFormed(ParseValue(s).value.0)
    decreases |s|, 0
  {
    var t := SkipWs(s);
    if t[0] == '[' {
      ArrayParses(t[1..]);
    } else if t[0] == '{' {
      ObjectParses(t[1..]);
    } else if t[0] != '"' {
      var n := NumRun(t);
      assert forall i | 0 <= i < n :: NumChar(t[..n][i]);
    }
  }

  lemma {:induction false} ArrayParses(s: string)
    requires ParseArray(s).Some?
    ensures WellFormed(Arr(ParseArray(s).value.0))
    decreases |s|, 2
  {
    var t := SkipWs(s);
    if !(t != "" && t[0] == ']') { ItemsParse(s); }
  }

  lemma {:induction false} ItemsParse(s: string)
    requires ParseItems(s).Some?
    ensures WellFormed(Arr(ParseItems(s).value.0))
    decreases |s|, 1
  {
    ValueParses(s);
    var (v, rest) := ParseValue(s).value;
    var t := SkipWs(rest);
    if t[0] == ',' { ItemsParse(t[1..]); }
  }

  lemma {:induction false} ObjectParses(s: string)
    requires ParseObject(s).Some?
    ensures WellFormed(Obj(ParseObject(s).value.0))
    decreases |s|, 2
  {
    var t := SkipWs(s);
    if !(t != "" && t[0] == '}') { FieldsParse(s); }
  }

  lemma {:induction false} FieldsParse(s: string)
    requires ParseFields(s).Some?
    ensures WellFormed(Obj(ParseFields(s).value.0))
    decreases |s|, 1
  {
    var t := SkipWs(s);
    var (name, rest) := ParseString(t[1..]).value;
    var u := SkipWs(rest);
    ValueParses(u[1..]);
    var (f, after) := ParseField(s).value;
    var w := SkipWs(after);
    if w[0] == ',' { FieldsParse(w[1..]); }
  }
}
