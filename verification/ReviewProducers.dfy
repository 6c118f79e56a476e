/**
 Findings produced from what a run observed, without a model: a literal on one observed line,
 cited there and claimed of the excerpt. What they are for is that the checker accepts them.
 */
module ReviewProducers {
  import opened Wrappers
  import opened Lines
  import opened Json
  import opened Observations
  import opened Snapshots
  import opened Observers
  import opened Findings
  import opened ClaimChecks
  import opened Evidence

  /** A literal found on a line of the excerpt, and the version it states when it states one. */
  datatype Candidate = Candidate(literal: string, version: string, offset: nat, line: string)

  datatype Hit = Hit(literal: string, version: string)

  /** The finding that a literal is in what was observed, citing the line it is on. */
  function ContainsFinding(o: Observation, text: string, lineNumber: int, line: string): Entry {
    var claim := RenderLiteral(HasText, text, o.path, o.lineStart, o.lineEnd);
    Entry(
      Finding(claim, o.path, "unknown", [Reference(o.sourceId, o.digest, lineNumber, lineNumber, line)]),
      Some(Literal(HasText, o.sourceId, text)), None)
  }

  function FindingOf(o: Observation, c: Candidate): Entry {
    ContainsFinding(o, c.literal, o.lineStart + c.offset, c.line)
  }

  // ------------------------------------------------------------------ scanning

  /** What a line yields, given the lines before it. */
  type Recogniser = (seq<string>, string) -> Option<Hit>

  function Scan(lines: seq<string>, f: Recogniser): seq<Candidate> {
    if lines == [] then []
    else
      var init, last := lines[..|lines| - 1], lines[|lines| - 1];
      var hit := f(init, last);
      Scan(init, f)
      + if hit.Some? then [Candidate(hit.value.literal, hit.value.version, |init|, last)] else []
  }

  lemma ScanStep(lines: seq<string>, f: Recogniser, k: nat)
    requires k < |lines|
    ensures var hit := f(lines[..k], lines[k]);
            Scan(lines[..k + 1], f)
            == Scan(lines[..k], f)
               + if hit.Some? then [Candidate(hit.value.literal, hit.value.version, k, lines[k])] else []
  {
    assert lines[..k + 1][..k] == lines[..k];
  }

  function Only(candidates: seq<Candidate>): Option<Candidate> {
    if |candidates| == 1 then Some(candidates[0]) else None
  }

  /** A recogniser only ever claims text that is on the line it read. */
  ghost predicate IsLiteral(f: Recogniser) {
    forall before, line :: f(before, line).Some? ==>
      f(before, line).value.literal != "" && Contains(line, f(before, line).value.literal)
  }

  predicate IsAt(lines: seq<string>, c: Candidate) {
    c.offset < |lines| && lines[c.offset] == c.line && c.literal != "" && Contains(c.line, c.literal)
  }

  lemma {:induction false} ScanFindsLines(lines: seq<string>, f: Recogniser, k: nat)
    requires IsLiteral(f) && k < |Scan(lines, f)|
    ensures IsAt(lines, Scan(lines, f)[k])
  {
    var init := lines[..|lines| - 1];
    if k < |Scan(init, f)| {
      ScanFindsLines(init, f, k);
      assert Scan(lines, f)[k] == Scan(init, f)[k];
    }
  }

  // ---------------------------------------------------------------- test command

  predicate IsTestCommand(command: string) {
    command != "" && (Contains(command, "unittest") || Contains(command, "pytest"))
  }

  function CommandOf(line: string): Option<string> {
    var stripped := Strip(line);
    if "- run:" <= stripped then Some(Strip(stripped[6..]))
    else if "run:" <= stripped then Some(Strip(stripped[4..]))
    else None
  }

  function TestCommandHit(before: seq<string>, line: string): Option<Hit> {
    var command := CommandOf(line);
    if command.Some? && IsTestCommand(command.value) then Some(Hit(command.value, "")) else None
  }

  lemma SuffixInside(s: string, k: nat)
    requires k <= |s|
    ensures Contains(s, s[k..])
  {
    assert OccursAt(s, s[k..], k);
  }

  lemma StrippedSuffixInside(line: string, k: nat)
    requires k <= |Strip(line)|
    ensures Contains(line, Strip(Strip(line)[k..]))
  {
    StripIsInside(line);
    SuffixInside(Strip(line), k);
    StripIsInside(Strip(line)[k..]);
    ContainsTransitive(line, Strip(line), Strip(line)[k..]);
    ContainsTransitive(line, Strip(line)[k..], Strip(Strip(line)[k..]));
  }

  lemma TestCommandIsLiteral()
    ensures IsLiteral(TestCommandHit)
  {
    forall before, line | TestCommandHit(before, line).Some?
      ensures TestCommandHit(before, line).value.literal != ""
      ensures Contains(line, TestCommandHit(before, line).value.literal)
    {
      if "- run:" <= Strip(line) { StrippedSuffixInside(line, 6); } else { StrippedSuffixInside(line, 4); }
    }
  }

  method SingleTestCommand(o: Observation) returns (r: Option<Candidate>)
    ensures r == Only(Scan(SplitLines(o.excerpt), TestCommandHit))
  {
    var lines := SplitLines(o.excerpt);
    var candidates: seq<Candidate> := [];
    for k := 0 to |lines|
      invariant candidates == Scan(lines[..k], TestCommandHit)
    {
      ScanStep(lines, TestCommandHit, k);
      var command := CommandOf(lines[k]);
      if command.None? {
        continue;
      }
      if IsTestCommand(command.value) {
        candidates := candidates + [Candidate(command.value, "", k, lines[k])];
      }
    }
    assert lines[..|lines|] == lines;
    return if |candidates| == 1 then Some(candidates[0]) else None;
  }

  // -------------------------------------------------------------------- versions

  /** `semver` is the version pattern; what it accepts does not matter here. */
  function VersionFileHit(line: string, semver: string -> bool): Option<Hit> {
    var value := Strip(line);
    if value != "" && semver(value) then Some(Hit(value, value)) else None
  }

  function VersionFileHits(semver: string -> bool): Recogniser {
    (before: seq<string>, line: string) => VersionFileHit(line, semver)
  }

  lemma VersionFileIsLiteral(semver: string -> bool)
    ensures IsLiteral(VersionFileHits(semver))
  {
    forall line | VersionFileHit(line, semver).Some? ensures Contains(line, Strip(line)) {
      StripIsInside(line);
    }
  }

  method VersionFile(o: Observation, semver: string -> bool) returns (r: Option<Candidate>)
    ensures r == Only(Scan(SplitLines(o.excerpt), VersionFileHits(semver)))
  {
    ghost var f := VersionFileHits(semver);
    var lines := SplitLines(o.excerpt);
    var candidates: seq<Candidate> := [];
    for k := 0 to |lines|
      invariant candidates == Scan(lines[..k], f)
    {
      ScanStep(lines, f, k);
      var value := Strip(lines[k]);
      if value != "" && semver(value) {
        candidates := candidates + [Candidate(value, value, k, lines[k])];
      }
    }
    assert lines[..|lines|] == lines;
    return if |candidates| == 1 then Some(candidates[0]) else None;
  }

  function QuoteAt(s: string): (i: nat)
    ensures i <= |s| && (i < |s| ==> s[i] == '"')
  {
    if s == "" || s[0] == '"' then 0 else 1 + QuoteAt(s[1..])
  }

  predicate IsSuffix(t: string, s: string) {
    |t| <= |s| && t == s[|s| - |t|..]
  }

  lemma SuffixOfSuffix(u: string, t: string, s: string)
    requires IsSuffix(u, t) && IsSuffix(t, s)
    ensures IsSuffix(u, s)
  {
  }

  /** `\s*<c>`: what follows the character, past the white space before it. */
  function After(s: string, c: char): (r: Option<string>)
    ensures r.Some? ==> |r.value| < |s| && IsSuffix(r.value, s)
  {
    var t := LStrip(s);
    if t == "" || t[0] != c then None
    else
      assert IsSuffix(t, s) && IsSuffix(t[1..], t);
      SuffixOfSuffix(t[1..], t, s);
      Some(t[1..])
  }

  /** `([^"]+)"`: the text up to the closing quote, and what follows it. */
  function UpToQuote(s: string): (r: Option<(string, string)>)
    ensures r.Some? ==> r.value.0 != "" && |r.value.1| < |s| && IsSuffix(r.value.1, s)
  {
    var i := QuoteAt(s);
    if i == 0 || i == |s| then None else Some((s[..i], s[i + 1..]))
  }

  /** After a key: `\s*<mark>\s*"([^"]+)"`, giving the quoted text and what follows it. */
  function QuotedAfter(s: string, mark: char): (r: Option<(string, string)>)
    ensures r.Some? ==> r.value.0 != "" && |r.value.1| < |s| && IsSuffix(r.value.1, s)
  {
    var a := After(s, mark);
    if a.None? then None
    else
      var b := After(a.value, '"');
      if b.None? then None
      else
        var c := UpToQuote(b.value);
        if c.None? then None
        else
          SuffixOfSuffix(b.value, a.value, s);
          SuffixOfSuffix(c.value.1, b.value, s);
          c
  }

  predicate IsSection(stripped: string) {
    stripped != "" && stripped[0] == '[' && stripped[|stripped| - 1] == ']'
  }

  /** The last `[section]` line of these, or nothing. */
  function SectionOf(lines: seq<string>): string {
    if lines == [] then ""
    else
      var stripped := Strip(lines[|lines| - 1]);
      if IsSection(stripped) then stripped else SectionOf(lines[..|lines| - 1])
  }

  lemma SectionStep(lines: seq<string>, k: nat)
    requires k < |lines|
    ensures SectionOf(lines[..k + 1])
            == if IsSection(Strip(lines[k])) then Strip(lines[k]) else SectionOf(lines[..k])
  {
    assert lines[..k + 1][..k] == lines[..k];
  }

  /** `version\s*=\s*"([^"]+)"`, and nothing after it. */
  function ProjectVersion(stripped: string): Option<string> {
    if !("version" <= stripped) then None
    else
      var q := QuotedAfter(stripped[7..], '=');
      if q.None? || q.value.1 != "" then None else Some(q.value.0)
  }

  function VersionIn(section: string, line: string, semver: string -> bool): Option<Hit> {
    var stripped := Strip(line);
    if IsSection(stripped) || section != "[project]" then None
    else
      var version := ProjectVersion(stripped);
      if version.Some? && semver(version.value) then Some(Hit(stripped, version.value)) else None
  }

  /** A recogniser that knows which section it is in. */
  function Sectioned(g: (string, string) -> Option<Hit>): Recogniser {
    (before: seq<string>, line: string) => g(SectionOf(before), line)
  }

  function PyprojectHit(semver: string -> bool): Recogniser {
    Sectioned((section: string, line: string) => VersionIn(section, line, semver))
  }

  lemma PyprojectIsLiteral(semver: string -> bool)
    ensures IsLiteral(PyprojectHit(semver))
  {
    var f := PyprojectHit(semver);
    forall before, line | f(before, line).Some?
      ensures f(before, line).value.literal != "" && Contains(line, f(before, line).value.literal)
    {
      StripIsInside(line);
      assert f(before, line) == VersionIn(SectionOf(before), line, semver);
    }
  }

  method ScanSections(lines: seq<string>, g: (string, string) -> Option<Hit>) returns (candidates: seq<Candidate>)
    ensures candidates == Scan(lines, Sectioned(g))
  {
    var section := "";
    candidates := [];
    for k := 0 to |lines|
      invariant candidates == Scan(lines[..k], Sectioned(g)) && section == SectionOf(lines[..k])
    {
      ScanStep(lines, Sectioned(g), k);
      SectionStep(lines, k);
      var hit := g(section, lines[k]);
      if hit.Some? {
        candidates := candidates + [Candidate(hit.value.literal, hit.value.version, k, lines[k])];
      }
      section := if IsSection(Strip(lines[k])) then Strip(lines[k]) else section;
    }
    assert lines[..|lines|] == lines;
  }

  method PyprojectVersion(o: Observation, semver: string -> bool) returns (r: Option<Candidate>)
    ensures r == Only(Scan(SplitLines(o.excerpt), PyprojectHit(semver)))
  {
    var candidates := ScanSections(
      SplitLines(o.excerpt), (section: string, line: string) => VersionIn(section, line, semver));
    return if |candidates| == 1 then Some(candidates[0]) else None;
  }

  /** `"version"\s*:\s*"([^"]+)"`, wherever on the line it first matches. */
  function ManifestMatch(s: string): (r: Option<Hit>)
    ensures r.Some? ==> r.value.literal != "" && Contains(s, r.value.literal)
  {
    if s == "" then None
    else
      var here := if "\"version\"" <= s then QuotedAfter(s[9..], ':') else None;
      if here.Some? then
        var literal := s[..|s| - |here.value.1|];
        assert OccursAt(s, literal, 0);
        Some(Hit(literal, here.value.0))
      else
        var later := ManifestMatch(s[1..]);
        if later.Some? then
          SuffixInside(s, 1);
          ContainsTransitive(s, s[1..], later.value.literal);
          later
        else None
  }

  function ManifestHit(line: string, semver: string -> bool): Option<Hit> {
    var m := ManifestMatch(line);
    if m.Some? && semver(m.value.version) then m else None
  }

  function ManifestHits(semver: string -> bool): Recogniser {
    (before: seq<string>, line: string) => ManifestHit(line, semver)
  }

  method ManifestVersion(o: Observation, semver: string -> bool) returns (r: Option<Candidate>)
    ensures r == Only(Scan(SplitLines(o.excerpt), ManifestHits(semver)))
  {
    ghost var f := ManifestHits(semver);
    var lines := SplitLines(o.excerpt);
    var candidates: seq<Candidate> := [];
    for k := 0 to |lines|
      invariant candidates == Scan(lines[..k], f)
    {
      ScanStep(lines, f, k);
      var m := ManifestMatch(lines[k]);
      if m.Some? && semver(m.value.version) {
        candidates := candidates + [Candidate(m.value.literal, m.value.version, k, lines[k])];
      }
    }
    assert lines[..|lines|] == lines;
    return if |candidates| == 1 then Some(candidates[0]) else None;
  }

  // ------------------------------------------------------------- the first of a kind

  method FirstWith(lines: seq<string>, marker: string) returns (k: nat)
    ensures k <= |lines| && (k < |lines| ==> Contains(lines[k], marker))
    ensures k < |lines| <==> SomeLineContains(lines, marker)
  {
    k := 0;
    while k < |lines| && !Contains(lines[k], marker)
      invariant k <= |lines| && forall i | 0 <= i < k :: !Contains(lines[i], marker)
    {
      k := k + 1;
    }
  }

  method FindingForMarker(o: Observation, marker: string) returns (r: Option<Entry>, ghost c: Candidate)
    requires marker != ""
    ensures r.Some? <==> SomeLineContains(SplitLines(o.excerpt), marker)
    ensures r.Some? ==>
              c.literal == marker && IsAt(SplitLines(o.excerpt), c) && r.value == FindingOf(o, c)
  {
    var lines := SplitLines(o.excerpt);
    var k := FirstWith(lines, marker);
    c := Candidate(marker, "", k, if k < |lines| then lines[k] else "");
    r := if k == |lines| then None else Some(FindingOf(o, Candidate(marker, "", k, lines[k])));
  }

  function NonSpaceRun(s: string): (n: nat)
    ensures n <= |s|
  {
    if s == "" || IsSpace(s[0]) then 0 else 1 + NonSpaceRun(s[1..])
  }

  /** `v([^\s]+)` at the start. */
  function Named(rest: string): Option<string> {
    if rest == "" || rest[0] != 'v' then None
    else
      var n := NonSpaceRun(rest[1..]);
      if n == 0 then None else Some(rest[1..][..n])
  }

  /** `^##\s+v([^\s]+)` on a stripped line. */
  function HeadingVersion(stripped: string): Option<string> {
    if |stripped| > 2 && stripped[0] == '#' && stripped[1] == '#' && IsSpace(stripped[2])
    then Named(LStrip(stripped[2..]))
    else None
  }

  function Releases(semver: string -> bool): string -> Option<string> {
    (line: string) =>
      var version := HeadingVersion(Strip(line));
      if version.Some? && semver(version.value) then version else None
  }

  predicate NonePicked(lines: seq<string>, pick: string -> Option<string>) {
    forall i | 0 <= i < |lines| :: pick(lines[i]).None?
  }

  /** The first line that `pick` takes something from. */
  method FirstPicked(lines: seq<string>, pick: string -> Option<string>) returns (k: nat)
    ensures k <= |lines| && NonePicked(lines[..k], pick)
    ensures k < |lines| ==> pick(lines[k]).Some?
  {
    k := 0;
    while k < |lines| && pick(lines[k]).None?
      invariant k <= |lines| && NonePicked(lines[..k], pick)
    {
      k := k + 1;
    }
  }

  /** The first release heading; its literal is rebuilt with one space, whatever the line has. */
  method ChangelogVersion(o: Observation, semver: string -> bool) returns (r: Option<Candidate>)
    ensures var lines, pick := SplitLines(o.excerpt), Releases(semver);
            if r.None? then NonePicked(lines, pick)
            else
              && r.value.offset < |lines| && r.value.line == lines[r.value.offset]
              && NonePicked(lines[..r.value.offset], pick)
              && pick(r.value.line) == Some(r.value.version)
              && r.value.literal == "## v" + r.value.version
  {
    var lines := SplitLines(o.excerpt);
    var k := FirstPicked(lines, Releases(semver));
    if k == |lines| {
      assert lines[..k] == lines;
      return None;
    }
    var version := Releases(semver)(lines[k]).value;
    return Some(Candidate("## v" + version, version, k, lines[k]));
  }

  // ------------------------------------------------------- what the checker makes of it

  /** The run holds this observation, and the source is read as it was. */
  ghost predicate IsUnchanged(reread: nat -> Reading, content: string) {
    forall i :: reread(i) == Read(content)
  }

  predicate Holds(obs: seq<Observation>, o: Observation) {
    o in obs && UniqueIds(obs)
  }

  lemma HeldAt(obs: seq<Observation>, o: Observation)
    requires Holds(obs, o)
    ensures PositionOf(obs, o.sourceId).Some? && obs[PositionOf(obs, o.sourceId).value] == o
  {
    var i :| 0 <= i < |obs| && obs[i] == o;
    PositionIs(obs, i);
  }

  lemma WindowOf(o: Observation, content: string) returns (kept: seq<string>)
    requires Faithful(o, content) && content != ""
    ensures var lines := SplitLines(content);
            && 1 <= o.lineStart <= o.lineEnd <= |lines| && kept == lines[o.lineStart - 1..o.lineEnd]
            && o.excerpt == JoinLines(kept) && SplitLines(o.excerpt) == Visible(kept)
  {
    kept := Window(SplitLines(content), o.lineStart, o.lineEnd);
    SplitJoin(kept);
  }

  lemma NothingInNothing(text: string)
    requires text != ""
    ensures !Contains("", text)
  {
  }

  lemma VisibleAt(lines: seq<string>, k: nat)
    requires k < |Visible(lines)|
    ensures k < |lines| && Visible(lines)[k] == lines[k]
  {
  }

  lemma OneLine(lines: seq<string>, n: int)
    requires 1 <= n <= |lines|
    ensures JoinLines(Window(lines, n, n)) == lines[n - 1]
  {
    assert Window(lines, n, n) == [lines[n - 1]];
  }

  lemma LineOfWindow(lines: seq<string>, from: int, to: int, kept: seq<string>, k: nat)
    requires 1 <= from <= to <= |lines| && kept == lines[from - 1..to] && k < |Visible(kept)|
    ensures from + k <= to && JoinLines(Window(lines, from + k, from + k)) == Visible(kept)[k]
    ensures k < |kept| && kept[k] == Visible(kept)[k]
  {
    VisibleAt(kept, k);
    OneLine(lines, from + k);
  }

  lemma LiteralIsSomething(c: Candidate)
    requires c.literal != "" && Contains(c.line, c.literal)
    ensures c.line != ""
  {
    if c.line == "" { NothingInNothing(c.literal); }
  }

  lemma SomethingWasRead(o: Observation, content: string)
    requires Faithful(o, content) && SplitLines(o.excerpt) != []
    ensures content != ""
  {
    assert content == "" ==> o.excerpt == "";
  }

  /** Lines of an excerpt are lines of the source, where the excerpt says they are. */
  lemma ExcerptLine(o: Observation, content: string, k: nat)
    requires Faithful(o, content) && k < |SplitLines(o.excerpt)|
    ensures o.lineStart <= o.lineStart + k <= o.lineEnd && 1 <= o.lineStart
    ensures LinesAt(content, o.lineStart + k, o.lineStart + k) == SplitLines(o.excerpt)[k]
  {
    SomethingWasRead(o, content);
    var kept := WindowOf(o, content);
    LineOfWindow(SplitLines(content), o.lineStart, o.lineEnd, kept, k);
  }

  /** And text on one of them is in the excerpt. */
  lemma OnALine(o: Observation, content: string, k: nat, text: string)
    requires Faithful(o, content) && k < |SplitLines(o.excerpt)| && Contains(SplitLines(o.excerpt)[k], text)
    ensures Contains(o.excerpt, text)
  {
    SomethingWasRead(o, content);
    var kept := WindowOf(o, content);
    VisibleAt(kept, k);
    LineInside(kept, k, text);
  }

  lemma LineInside(lines: seq<string>, k: nat, text: string)
    requires k < |lines| && Contains(lines[k], text)
    ensures Contains(JoinLines(lines), text)
  {
    assert lines[k..k + 1] == [lines[k]];
    SubrunIsInside(lines, k, k + 1);
    ContainsTransitive(JoinLines(lines), lines[k], text);
  }

  lemma IntactWhen(ref: Reference, o: Observation, content: string, obs: seq<Observation>, extra: set<SourceType>)
    requires Holds(obs, o) && o.sourceType == LocalFile && IsHonest(o, content)
    requires ref.sourceId == o.sourceId && ref.digest == o.digest
    requires o.lineStart <= ref.lineStart && ref.lineEnd <= o.lineEnd
    requires LinesAt(content, ref.lineStart, ref.lineEnd) == ref.quoted
    ensures CheckReference(ref, obs, extra, Read(content)) == Intact
  {
    HeldAt(obs, o);
  }

  function CitationOf(o: Observation, c: Candidate): Reference {
    Reference(o.sourceId, o.digest, o.lineStart + c.offset, o.lineStart + c.offset, c.line)
  }

  /** The citation of such a finding is intact against the unchanged source. */
  lemma CitationIsIntact(
      o: Observation, content: string, c: Candidate, obs: seq<Observation>, extra: set<SourceType>)
    requires Faithful(o, content) && IsAt(SplitLines(o.excerpt), c) && Holds(obs, o)
    ensures ReferenceOk(CitationOf(o, c)) && CheckReference(CitationOf(o, c), obs, extra, Read(content)) == Intact
  {
    ExcerptLine(o, content, c.offset);
    LiteralIsSomething(c);
    IntactWhen(CitationOf(o, c), o, content, obs, extra);
  }

  lemma OneIntactIsSound(
      f: Finding, obs: seq<Observation>, extra: set<SourceType>, reread: nat -> Reading, content: string)
    requires |f.evidence| == 1 && IsUnchanged(reread, content)
    requires CheckReference(f.evidence[0], obs, extra, Read(content)) == Intact
    ensures AreSound(CheckFinding(f, obs, extra, reread))
  {
    assert reread(0) == Read(content);
  }

  lemma ObservedWhen(
      f: Finding, o: Observation, content: string, obs: seq<Observation>, extra: set<SourceType>)
    requires Holds(obs, o) && o.sourceType == LocalFile && IsHonest(o, content) && Cites(f, o.sourceId)
    ensures ObservedText(f, o.sourceId, obs, extra, Read(content)) == Ok((o, o.excerpt))
  {
    HeldAt(obs, o);
  }

  /** A literal claim about a held, unchanged source comes down to its text and its sentence. */
  lemma LiteralIsSettled(
      f: Finding, text: string, o: Observation, content: string, obs: seq<Observation>, extra: set<SourceType>,
      t: Tokenizer, reread: nat -> Reading)
    requires Holds(obs, o) && o.sourceType == LocalFile && IsHonest(o, content) && Cites(f, o.sourceId)
    requires IsUnchanged(reread, content)
    ensures CheckTyped(f, Literal(HasText, o.sourceId, text), obs, extra, t, reread)
            == if Strip(f.claim) != RenderLiteral(HasText, text, o.path, o.lineStart, o.lineEnd) then TextMismatch
               else if Contains(o.excerpt, text) then ClaimVerified
               else ClaimContradicted
  {
    ObservedWhen(f, o, content, obs, extra);
    assert reread(0) == Read(content);
  }

  lemma StripsToItself(path: string, rest: string)
    requires path != "" && rest != "" && rest[|rest| - 1] == '"'
    ensures Strip(path + rest) == path + rest <==> !IsSpace(path[0])
  {
    var s := path + rest;
    assert s[0] == path[0] && s[|s| - 1] == rest[|rest| - 1];
    StripKeepsStart(s);
  }

  lemma RenderedEndsInAQuote(text: string, path: string, lineStart: int, lineEnd: int)
    ensures var claim := RenderLiteral(HasText, text, path, lineStart, lineEnd);
            path <= claim && var rest := claim[|path|..]; rest != "" && rest[|rest| - 1] == '"'
  {
    var claim := RenderLiteral(HasText, text, path, lineStart, lineEnd);
    var q := Quote(text);
    assert q[|q| - 1] == '"' && claim[|claim| - |q|..] == q;
  }

  lemma SentenceStripsToItselfIff(text: string, path: string, lineStart: int, lineEnd: int)
    requires path != ""
    ensures var claim := RenderLiteral(HasText, text, path, lineStart, lineEnd);
            Strip(claim) == claim <==> !IsSpace(path[0])
  {
    RenderedEndsInAQuote(text, path, lineStart, lineEnd);
    var claim := RenderLiteral(HasText, text, path, lineStart, lineEnd);
    assert claim == path + claim[|path|..];
    StripsToItself(path, claim[|path|..]);
  }

  /**
   Producer and checker agree: such a finding is verified against the unchanged source exactly
   when its literal was observed and the path its sentence starts with does not begin with a
   space, which stripping the claim would remove.
   */
  lemma ProducedIsVerifiedIff(
      o: Observation, content: string, text: string, lineNumber: int, line: string, obs: seq<Observation>,
      extra: set<SourceType>, t: Tokenizer, reread: nat -> Reading)
    requires Holds(obs, o) && o.sourceType == LocalFile && IsHonest(o, content) && o.path != ""
    requires IsUnchanged(reread, content)
    ensures var e := ContainsFinding(o, text, lineNumber, line);
            CheckClaim(e.finding, e.typed, e.condition, obs, extra, t, reread)
            == if IsSpace(o.path[0]) then TextMismatch
               else if Contains(o.excerpt, text) then ClaimVerified
               else ClaimContradicted
  {
    var f := ContainsFinding(o, text, lineNumber, line).finding;
    assert f.evidence[0].sourceId == o.sourceId;
    LiteralIsSettled(f, text, o, content, obs, extra, t, reread);
    SentenceStripsToItselfIff(text, o.path, o.lineStart, o.lineEnd);
  }

  /** A finding built from a literal on an observed line is cited intact. */
  lemma ProducedIsIntact(
      o: Observation, content: string, c: Candidate, obs: seq<Observation>, extra: set<SourceType>,
      reread: nat -> Reading)
    requires Faithful(o, content) && IsAt(SplitLines(o.excerpt), c) && Holds(obs, o)
    requires IsUnchanged(reread, content)
    ensures AreSound(CheckFinding(FindingOf(o, c).finding, obs, extra, reread))
  {
    var f := FindingOf(o, c).finding;
    assert f.evidence == [CitationOf(o, c)];
    CitationIsIntact(o, content, c, obs, extra);
    OneIntactIsSound(f, obs, extra, reread, content);
  }

  lemma LiteralWasObserved(o: Observation, content: string, c: Candidate)
    requires Faithful(o, content) && IsAt(SplitLines(o.excerpt), c)
    ensures o.sourceType == LocalFile && IsHonest(o, content) && o.path != "" && Contains(o.excerpt, c.literal)
  {
    OnALine(o, content, c.offset, c.literal);
  }

  /** The sentence of a finding is the one its literal claim means, and it is true of the excerpt. */
  predicate SaysWhatHolds(e: Entry, o: Observation) {
    && e.typed.Some? && e.typed.value.Literal? && e.typed.value.kind == HasText
    && e.typed.value.sourceId == o.sourceId && Cites(e.finding, o.sourceId)
    && Strip(e.finding.claim)
       == RenderLiteral(HasText, e.typed.value.text, o.path, o.lineStart, o.lineEnd)
    && Contains(o.excerpt, e.typed.value.text)
  }

  lemma FindingSaysWhatHolds(e: Entry, o: Observation, c: Candidate)
    requires o.path != "" && !IsSpace(o.path[0]) && Contains(o.excerpt, c.literal) && e == FindingOf(o, c)
    ensures SaysWhatHolds(e, o)
  {
    assert e.finding.evidence[0].sourceId == o.sourceId;
    SentenceStripsToItselfIff(c.literal, o.path, o.lineStart, o.lineEnd);
  }

  lemma SayingIsSettling(
      e: Entry, o: Observation, content: string, obs: seq<Observation>, extra: set<SourceType>, t: Tokenizer,
      reread: nat -> Reading)
    requires SaysWhatHolds(e, o) && Holds(obs, o) && o.sourceType == LocalFile && IsHonest(o, content)
    requires IsUnchanged(reread, content)
    ensures CheckClaim(e.finding, e.typed, e.condition, obs, extra, t, reread) == ClaimVerified
  {
    LiteralIsSettled(e.finding, e.typed.value.text, o, content, obs, extra, t, reread);
  }

  /** A run that holds an observation whose source still reads as it did. */
  ghost predicate StillReads(o: Observation, content: string, obs: seq<Observation>, reread: nat -> Reading) {
    Faithful(o, content) && Holds(obs, o) && IsUnchanged(reread, content) && !IsSpace(o.path[0])
  }

  /** The checker finds every citation intact and the claim true. */
  predicate IsAccepted(e: Entry, obs: seq<Observation>, extra: set<SourceType>, t: Tokenizer, reread: nat -> Reading) {
    && AreSound(CheckFinding(e.finding, obs, extra, reread))
    && CheckClaim(e.finding, e.typed, e.condition, obs, extra, t, reread) == ClaimVerified
  }

  lemma AcceptedWhen(
      e: Entry, o: Observation, content: string, obs: seq<Observation>, extra: set<SourceType>, t: Tokenizer,
      reread: nat -> Reading)
    requires AreSound(CheckFinding(e.finding, obs, extra, reread)) && SaysWhatHolds(e, o)
    requires Holds(obs, o) && o.sourceType == LocalFile && IsHonest(o, content) && IsUnchanged(reread, content)
    ensures IsAccepted(e, obs, extra, t, reread)
  {
    SayingIsSettling(e, o, content, obs, extra, t, reread);
  }

  /** So a finding made of any literal on any observed line is intact and verified. */
  lemma ProducedIsAccepted(
      e: Entry, o: Observation, content: string, c: Candidate, obs: seq<Observation>, extra: set<SourceType>,
      t: Tokenizer, reread: nat -> Reading)
    requires StillReads(o, content, obs, reread) && IsAt(SplitLines(o.excerpt), c) && e == FindingOf(o, c)
    ensures IsAccepted(e, obs, extra, t, reread)
  {
    ProducedIsIntact(o, content, c, obs, extra, reread);
    LiteralWasObserved(o, content, c);
    FindingSaysWhatHolds(e, o, c);
    AcceptedWhen(e, o, content, obs, extra, t, reread);
  }

  lemma ScannedIsAccepted(
      e: Entry, o: Observation, content: string, f: Recogniser, c: Candidate, obs: seq<Observation>,
      extra: set<SourceType>, t: Tokenizer, reread: nat -> Reading)
    requires StillReads(o, content, obs, reread) && e == FindingOf(o, c)
    requires IsLiteral(f) && Only(Scan(SplitLines(o.excerpt), f)) == Some(c)
    ensures IsAccepted(e, obs, extra, t, reread)
  {
    ScanFindsLines(SplitLines(o.excerpt), f, 0);
    ProducedIsAccepted(e, o, content, c, obs, extra, t, reread);
  }

  /** The one test command of a workflow. */
  lemma TestCommandIsAccepted(
      e: Entry, o: Observation, content: string, c: Candidate, obs: seq<Observation>, extra: set<SourceType>,
      t: Tokenizer, reread: nat -> Reading)
    requires StillReads(o, content, obs, reread) && e == FindingOf(o, c)
    requires Only(Scan(SplitLines(o.excerpt), TestCommandHit)) == Some(c)
    ensures IsAccepted(e, obs, extra, t, reread)
  {
    TestCommandIsLiteral();
    ScannedIsAccepted(e, o, content, TestCommandHit, c, obs, extra, t, reread);
  }

  /** The one version line of a VERSION file. */
  lemma VersionFileIsAccepted(
      e: Entry, o: Observation, content: string, semver: string -> bool, c: Candidate, obs: seq<Observation>,
      extra: set<SourceType>, t: Tokenizer, reread: nat -> Reading)
    requires StillReads(o, content, obs, reread) && e == FindingOf(o, c)
    requires Only(Scan(SplitLines(o.excerpt), VersionFileHits(semver))) == Some(c)
    ensures IsAccepted(e, obs, extra, t, reread)
  {
    VersionFileIsLiteral(semver);
    ScannedIsAccepted(e, o, content, VersionFileHits(semver), c, obs, extra, t, reread);
  }

  /** The one version of a project section. */
  lemma PyprojectIsAccepted(
      e: Entry, o: Observation, content: string, semver: string -> bool, c: Candidate, obs: seq<Observation>,
      extra: set<SourceType>, t: Tokenizer, reread: nat -> Reading)
    requires StillReads(o, content, obs, reread) && e == FindingOf(o, c)
    requires Only(Scan(SplitLines(o.excerpt), PyprojectHit(semver))) == Some(c)
    ensures IsAccepted(e, obs, extra, t, reread)
  {
    PyprojectIsLiteral(semver);
    ScannedIsAccepted(e, o, content, PyprojectHit(semver), c, obs, extra, t, reread);
  }

  /** The one version key of a manifest. */
  lemma ManifestIsAccepted(
      e: Entry, o: Observation, content: string, semver: string -> bool, c: Candidate, obs: seq<Observation>,
      extra: set<SourceType>, t: Tokenizer, reread: nat -> Reading)
    requires StillReads(o, content, obs, reread) && e == FindingOf(o, c)
    requires Only(Scan(SplitLines(o.excerpt), ManifestHits(semver))) == Some(c)
    ensures IsAccepted(e, obs, extra, t, reread)
  {
    ManifestIsLiteral(semver);
    ScannedIsAccepted(e, o, content, ManifestHits(semver), c, obs, extra, t, reread);
  }

  lemma ManifestIsLiteral(semver: string -> bool)
    ensures IsLiteral(ManifestHits(semver))
  {
  }

  lemma HeadingIsAPrefix(s: string, version: string)
    requires HeadingVersion(s) == Some(version)
    requires |s| > 3 && s[2] == ' ' && !IsSpace(s[3])
    ensures "## v" + version <= s
  {
    assert s[2..][1..] == s[3..] && LStrip(s[2..]) == s[3..];
    assert s[3..][1..] == s[4..];
    var n := NonSpaceRun(s[4..]);
    assert s[..4] == "## v";
    assert s[..4 + n] == "## v" + version;
  }

  lemma HeadingIsLongEnough(s: string)
    requires HeadingVersion(s).Some?
    ensures |s| > 3 && IsSpace(s[2])
  {
    var rest := LStrip(s[2..]);
    assert rest[0] == 'v' && s[2..] != rest;
    assert |rest| <= |s[2..]|;
  }

  /** The rebuilt heading begins its line exactly when one space follows the marks. */
  lemma RebuiltHeadingIff(line: string, version: string)
    requires HeadingVersion(Strip(line)) == Some(version)
    ensures var s := Strip(line);
            |s| > 3 && ("## v" + version <= s <==> s[2] == ' ' && !IsSpace(s[3]))
  {
    var s := Strip(line);
    HeadingIsLongEnough(s);
    if s[2] == ' ' && !IsSpace(s[3]) { HeadingIsAPrefix(s, version); }
    if "## v" + version <= s {
      assert ("## v" + version)[2] == ' ' && ("## v" + version)[3] == 'v';
    }
  }

  /** One space after `##` is what makes the rebuilt heading a literal of its own line. */
  lemma OneSpaceIsLiteral(line: string, version: string)
    requires HeadingVersion(Strip(line)) == Some(version)
    requires |Strip(line)| > 3 && Strip(line)[2] == ' ' && !IsSpace(Strip(line)[3])
    ensures Contains(line, "## v" + version)
  {
    StripIsInside(line);
    HeadingIsAPrefix(Strip(line), version);
    assert OccursAt(Strip(line), "## v" + version, 0);
    ContainsTransitive(line, Strip(line), "## v" + version);
  }

  /** The changelog producer's finding is verified exactly when the rebuilt heading was observed. */
  lemma ChangelogIsVerifiedIff(
      o: Observation, content: string, lineNumber: int, line: string, version: string, obs: seq<Observation>,
      extra: set<SourceType>, t: Tokenizer, reread: nat -> Reading)
    requires Faithful(o, content) && Holds(obs, o) && !IsSpace(o.path[0]) && IsUnchanged(reread, content)
    ensures var e := ContainsFinding(o, "## v" + version, lineNumber, line);
            CheckClaim(e.finding, e.typed, e.condition, obs, extra, t, reread)
            == if Contains(o.excerpt, "## v" + version) then ClaimVerified else ClaimContradicted
  {
    ProducedIsVerifiedIff(o, content, "## v" + version, lineNumber, line, obs, extra, t, reread);
  }

  lemma DiffersAt(s: string, t: string, i: nat, k: nat)
    requires i + |t| <= |s| && k < |t| && s[i + k] != t[k]
    ensures !OccursAt(s, t, i)
  {
    assert s[i..i + |t|][k] == s[i + k];
  }

  lemma TooShortFor(s: string, t: string)
    requires |s| == |t| + 1 && |t| > 3 && s[3] != t[3] && s[2] != t[1]
    ensures !Contains(s, t)
  {
    DiffersAt(s, t, 0, 3);
    DiffersAt(s, t, 1, 1);
  }

  lemma StripOne(c: char, s: string)
    requires IsSpace(c)
    ensures LStrip([c] + s) == LStrip(s)
  {
    assert ([c] + s)[1..] == s;
  }

  lemma StripTwo(s: string)
    requires s != "" && !IsSpace(s[0])
    ensures LStrip("  " + s) == s
  {
    StripOne(' ', s);
    StripOne(' ', [' '] + s);
    assert "  " + s == [' '] + ([' '] + s);
  }

  lemma NamedOne(rest: string)
    requires rest == "v1"
    ensures Named(rest) == Some("1")
  {
    assert rest[1..] == "1" && "1"[1..] == "" && NonSpaceRun("1") == 1 && "1"[..1] == "1";
  }

  /** Two spaces are a heading too. */
  lemma TwoSpacesAreAHeading(line: string, rest: string)
    requires rest == "v1" && line == "##" + ("  " + rest)
    ensures HeadingVersion(line) == Some("1")
  {
    assert line[2..] == "  " + rest && line[2] == ' ';
    StripTwo(rest);
    NamedOne(rest);
  }

  /** And then the rebuilt literal is not on the line. */
  lemma TwoSpacesAreNoLiteral()
    ensures !Contains("##  v1", "## v1")
  {
    TooShortFor("##  v1", "## v1");
  }
}
