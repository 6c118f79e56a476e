/**
 How far a literal claim about an excerpt reaches: when it holds of the whole source, and for
 which literals it always does.

 A local read has universal newlines, so the content of a local source holds no `\r`; the
 other line breaks of `str.splitlines` survive the read and become newlines in an excerpt.
 */
module ClaimScopes {
  import opened Wrappers
  import opened Lines
  import opened Observations
  import opened Snapshots
  import opened Findings
  import opened ClaimChecks

  predicate IsLocalText(content: string) {
    '\r' !in content
  }

  predicate ReadsAs(raw: string, content: string) {
    UniversalNewlines(raw) == content
  }

  /** The contents a read of a local file can come back with are those without a `\r`. */
  lemma LocalTextIff(content: string)
    ensures IsLocalText(content) <==> exists raw :: ReadsAs(raw, content)
  {
    if IsLocalText(content) { assert ReadsAs(content, content); }
  }

  // ---------------------------------------------------- excerpts and their sources

  lemma SubrunLines(lines: seq<string>, from: nat, to: nat, text: string)
    requires from <= to <= |lines| && SomeLineContains(lines[from..to], text)
    ensures SomeLineContains(lines, text)
  {
    var i :| 0 <= i < |lines[from..to]| && Contains(lines[from..to][i], text);
    assert lines[from + i] == lines[from..to][i];
  }

  lemma SomeWindowLine(lines: seq<string>, lineStart: int, lineEnd: int, text: string)
    requires SomeLineContains(Window(lines, lineStart, lineEnd), text)
    ensures SomeLineContains(lines, text)
  {
    var from, to := SliceIndex(lineStart - 1, |lines|), SliceIndex(lineEnd, |lines|);
    if from < to { SubrunLines(lines, from, to, text); }
  }

  lemma ContainsInPart(s: string, from: nat, to: nat, text: string)
    requires from <= to <= |s| && Contains(s[from..to], text)
    ensures Contains(s, text)
  {
    assert s == s[..from] + s[from..to] + s[to..];
    ContainsRight(s[..from], s[from..to], text);
    ContainsLeft(s[..from] + s[from..to], s[to..], text);
  }

  /** What is on a line of a source is in the source, whatever it is. */
  lemma {:induction false} LinesAreInside(s: string, text: string)
    requires SomeLineContains(SplitLines(s), text)
    ensures Contains(s, text)
    decreases |s|
  {
    var i := BreakAt(s);
    if i == |s| {
      assert s[..i] == s;
    } else {
      var n := i + BreakWidth(s, i);
      SomeLineCons(s[..i], SplitLines(s[n..]), text);
      if Contains(s[..i], text) {
        assert s[0..i] == s[..i];
        ContainsInPart(s, 0, i, text);
      } else {
        LinesAreInside(s[n..], text);
        assert s[n..|s|] == s[n..];
        ContainsInPart(s, n, |s|, text);
      }
    }
  }

  /**
   A literal without a newline that an excerpt contains, the source contains. It is enough that
   the excerpt is what sits at its lines; nothing is asked of how it was collected.
   */
  lemma FoundInTheFile(o: Observation, content: string, text: string)
    requires IsHonest(o, content) && text != "" && '\n' !in text
    requires HoldsFor(HasText, text, o.excerpt)
    ensures Contains(content, text)
  {
    var lines := SplitLines(content);
    ContainsInJoin(Window(lines, o.lineStart, o.lineEnd), text);
    SomeWindowLine(lines, o.lineStart, o.lineEnd, text);
    LinesAreInside(content, text);
  }

  /** So a verified "contains" without a newline holds of the content that was read to settle it. */
  lemma VerifiedContainsHolds(
      f: Finding, c: TypedClaim, obs: seq<Observation>, extra: set<SourceType>, t: Tokenizer, reread: nat -> Reading)
    requires c.Literal? && c.kind == HasText && c.text != "" && '\n' !in c.text
    requires CheckTyped(f, c, obs, extra, t, reread) == ClaimVerified
    ensures reread(0).Read? && Contains(reread(0).content, c.text)
  {
    var found := ObservedText(f, c.sourceId, obs, extra, reread(0));
    FoundInTheFile(found.value.0, reread(0).content, c.text);
  }

  /**
   "Lacks" needs more than that: the total a full read is judged by is never counted again, so
   a valid and honest observation may call itself complete and miss a line.
   */
  lemma TotalIsNotRecounted(path: string, snapshotId: string)
    requires !Blank(path) && KnownOrUnknown(snapshotId)
    ensures var o := Observation(Derived(snapshotId, LocalFile, path), LocalFile, path, Sha("a\nb"), "a", 1, 1,
                                 Some(1), snapshotId);
            && Valid(o) && IsHonest(o, "a\nb") && o.ReadInFull() == Some(true)
            && HoldsFor(LacksText, "b", o.excerpt) && Contains("a\nb", "b")
  {
    TwoLines("a", '\n', "b");
    assert Window(["a", "b"], 1, 1) == ["a"];
    NotInOther('a', 'b');
    assert OccursAt("a\nb", "b", 2);
  }

  lemma NotInOther(a: char, b: char)
    requires a != b
    ensures !Contains([a], [b])
  {
    forall i | 0 <= i <= 1 ensures !OccursAt([a], [b], i) {
      if i == 0 { assert [a][0..1][0] == a; }
    }
  }

  lemma TwoLines(a: string, sep: char, b: string)
    requires b != "" && NoBreak(a) && NoBreak(b) && IsBreak(sep) && sep != '\r'
    ensures SplitLines(a + [sep] + b) == [a, b]
  {
    var s := a + [sep] + b;
    BreakAtFirst(a, [sep] + b);
    assert s == a + ([sep] + b);
    assert s[..|a|] == a && s[|a| + 1..] == b;
    SplitStep(s, |a|, b);
    SplitOne(b);
  }

  /** A literal on one line that a source read in full lacks, is nowhere in the source. */
  lemma AbsentFromTheFile(o: Observation, content: string, text: string)
    requires CollectedFrom(o, content) && text != "" && NoBreak(text)
    requires o.ReadInFull() == Some(true)
    ensures HoldsFor(LacksText, text, o.excerpt) <==> !Contains(content, text)
  {
    CollectedIs(o, content);
    var lines := SplitLines(content);
    ContainsByLine(content, text);
    if content != "" {
      assert Window(lines, o.lineStart, o.lineEnd) == lines;
      ContainsInJoin(lines, text);
    }
  }

  lemma FirstLineIsRead(snapshotId: string, path: string, content: string)
    requires !Blank(path) && KnownOrUnknown(snapshotId)
    requires |SplitLines(content)| > 0 && SplitLines(content)[0] != ""
    ensures var o := Collect(snapshotId, path, content, 1, 1, None);
            o.Ok? && o.value.excerpt == SplitLines(content)[0]
  {
    var lines := SplitLines(content);
    CollectSucceedsIff(snapshotId, path, content, 1, 1);
    ExcerptIs(content, 1, 1);
    assert lines[0..1] == [lines[0]];
    MadeIs(Collect(snapshotId, path, content, 1, 1, None).value, path, content, Excerpt(lines[0], 1, 1), snapshotId);
  }

  /**
   Over a partial read the same verdict says nothing about the rest: both claims below are
   true of the lines observed, and false of the file.
   */
  lemma PartialAbsenceIsLocal(path: string, snapshotId: string)
    requires !Blank(path) && KnownOrUnknown(snapshotId)
    ensures var o := Collect(snapshotId, path, "a\nb", 1, 1, None);
            o.Ok? && HoldsFor(LacksText, "b", o.value.excerpt) && Contains("a\nb", "b")
  {
    TwoLines("a", '\n', "b");
    FirstLineIsRead(snapshotId, path, "a\nb");
    NotInOther('a', 'b');
    assert OccursAt("a\nb", "b", 2);
  }

  // ------------------------------------------------- which literals carry to the file

  predicate OtherBreak(text: string) {
    exists i | 0 <= i < |text| :: IsBreak(text[i]) && text[i] != '\n'
  }

  /** Every break written as a newline, which is what joining split lines does to a local source. */
  function Newlined(s: string): (r: string)
    ensures |r| == |s| && forall i | 0 <= i < |s| :: r[i] == if IsBreak(s[i]) then '\n' else s[i]
  {
    seq(|s|, i requires 0 <= i < |s| => if IsBreak(s[i]) then '\n' else s[i])
  }

  predicate EndsInBreak(s: string) {
    s != "" && IsBreak(s[|s| - 1])
  }

  /** A local source as a full read shows it: newlines for breaks, less one at the very end. */
  function Shown(s: string): string {
    if EndsInBreak(s) then Newlined(s)[..|s| - 1] else Newlined(s)
  }

  lemma NoReturnAfter(s: string, n: nat)
    requires IsLocalText(s) && n <= |s|
    ensures IsLocalText(s[n..])
  {
  }

  lemma SplitStep(s: string, i: nat, rest: string)
    requires i == BreakAt(s) < |s| && s[i] != '\r' && rest == s[i + 1..]
    ensures SplitLines(s) == [s[..i]] + SplitLines(rest)
  {
    assert BreakWidth(s, i) == 1;
  }

  lemma NewlinedStep(s: string, i: nat)
    requires i < |s| && NoBreak(s[..i]) && IsBreak(s[i])
    ensures Newlined(s) == s[..i] + "\n" + Newlined(s[i + 1..])
  {
    assert forall k | 0 <= k < i :: s[..i][k] == s[k];
    assert forall k | i < k < |s| :: s[i + 1..][k - i - 1] == s[k];
  }

  /** Splitting a local source and joining its lines gives what a full read shows. */
  lemma {:induction false} JoinSplit(s: string)
    requires IsLocalText(s)
    ensures JoinLines(SplitLines(s)) == Shown(s)
    decreases |s|
  {
    var i := BreakAt(s);
    if i == |s| {
      assert s[..i] == s;
      NoBreakShown(s);
    } else {
      assert s[i] in s;
      SplitStep(s, i, s[i + 1..]);
      NoReturnAfter(s, i + 1);
      NewlinedStep(s, i);
      JoinSplit(s[i + 1..]);
      JoinSplitStep(s, s[..i], s[i + 1..], SplitLines(s[i + 1..]));
    }
  }

  lemma NoBreakShown(s: string)
    requires NoBreak(s)
    ensures JoinLines(SplitLines(s)) == Shown(s) == s
  {
    BreakAtFirst(s, "");
    assert s + "" == s;
    assert s != "" ==> SplitLines(s) == [s];
    assert Newlined(s) == s;
  }

  lemma JoinSplitStep(s: string, line: string, rest: string, lines: seq<string>)
    requires |s| == |line| + 1 + |rest| && s[|line| + 1..] == rest && IsBreak(s[|line|])
    requires Newlined(s) == line + "\n" + Newlined(rest)
    requires JoinLines(lines) == Shown(rest) && (lines == [] <==> rest == "")
    ensures JoinLines([line] + lines) == Shown(s)
  {
    if rest == "" {
      assert [line] + lines == [line];
      assert Newlined(s)[..|s| - 1] == line;
    } else {
      JoinCons(line, lines);
      assert s[|s| - 1] == rest[|rest| - 1];
      assert (line + "\n" + Newlined(rest))[..|s| - 1] == line + "\n" + Newlined(rest)[..|rest| - 1];
    }
  }

  /** An excerpt breaks its lines with newlines and nothing else. */
  lemma {:induction false} JoinedBreaks(lines: seq<string>)
    requires AllNoBreak(lines)
    ensures !OtherBreak(JoinLines(lines))
  {
    if |lines| > 1 {
      assert lines == [lines[0]] + lines[1..];
      JoinCons(lines[0], lines[1..]);
      JoinedBreaks(lines[1..]);
      var head, tail := lines[0], JoinLines(lines[1..]);
      var s := head + "\n" + tail;
      forall i | 0 <= i < |s| && IsBreak(s[i]) ensures s[i] == '\n' {
        if i > |head| { assert s[i] == tail[i - |head| - 1]; }
      }
    }
  }

  lemma InsideHas(s: string, text: string, k: nat)
    requires k < |text|
    ensures Contains(s, text) ==> text[k] in s
  {
    if Contains(s, text) {
      var i :| 0 <= i <= |s| && OccursAt(s, text, i);
      assert s[i + k] == s[i..i + |text|][k];
    }
  }

  lemma NotWithoutItsBreak(s: string, text: string)
    requires !OtherBreak(s) && OtherBreak(text)
    ensures !Contains(s, text)
  {
    var k :| 0 <= k < |text| && IsBreak(text[k]) && text[k] != '\n';
    InsideHas(s, text, k);
  }

  lemma NotWithout(s: string, text: string, c: char)
    requires c !in s && c in text
    ensures !Contains(s, text)
  {
    var k :| 0 <= k < |text| && text[k] == c;
    InsideHas(s, text, k);
  }

  lemma ExcerptBreaks(o: Observation, content: string)
    requires IsHonest(o, content)
    ensures !OtherBreak(o.excerpt)
  {
    JoinedBreaks(Window(SplitLines(content), o.lineStart, o.lineEnd));
  }

  // ------------------------------------------------------------------- "contains"

  /** Whatever local file the literal is observed in, the file has it. */
  ghost predicate ContainsCarries(text: string) {
    forall o, content | CollectedFrom(o, content) && IsLocalText(content) && HoldsFor(HasText, text, o.excerpt) ::
      Contains(content, text)
  }

  /** `o` shows the whole of a local source. */
  ghost predicate IsWholeRead(o: Observation, content: string) {
    && CollectedFrom(o, content) && o.ReadInFull() == Some(true)
    && o.excerpt == JoinLines(SplitLines(content))
  }

  lemma WholeReadSucceeds(snapshotId: string, path: string, content: string)
    requires !Blank(path) && KnownOrUnknown(snapshotId)
    requires content != "" && SplitLines(content) != [""]
    ensures Collect(snapshotId, path, content, |SplitLines(content)|, 1, None).Ok?
  {
    var lines := SplitLines(content);
    assert |lines| == 1 ==> lines == [lines[0]];
    CollectSucceedsIff(snapshotId, path, content, |lines|, 1);
  }

  lemma WholeReadIs(snapshotId: string, path: string, content: string, o: Observation)
    requires content != "" && Collect(snapshotId, path, content, |SplitLines(content)|, 1, None) == Ok(o)
    ensures IsWholeRead(o, content)
  {
    var lines := SplitLines(content);
    ExcerptIs(content, |lines|, 1);
    assert lines[0..|lines|] == lines;
    CollectedIs(o, content);
  }

  lemma SomePathIsGood()
    ensures !Blank("p") && KnownOrUnknown("unknown")
  {
    assert !IsSpace("p"[0]);
  }

  /** Every source but the empty one and a single blank line can be read whole. */
  lemma WholeReadExists(content: string) returns (o: Observation)
    requires content != "" && SplitLines(content) != [""]
    ensures IsWholeRead(o, content)
  {
    SomePathIsGood();
    WholeReadSucceeds("unknown", "p", content);
    o := Collect("unknown", "p", content, |SplitLines(content)|, 1, None).value;
    WholeReadIs("unknown", "p", content, o);
  }

  lemma OneBlankLine(s: string)
    requires IsLocalText(s) && SplitLines(s) == [""]
    ensures |s| == 1
  {
    JoinSplit(s);
    assert JoinLines([""]) == "";
  }

  /** A break that a local read leaves alone. */
  const FORM_FEED: char := 12 as char

  /** The literal with its newlines written as form feeds, and something after it. */
  function Disguised(text: string): (s: string)
    ensures |s| == |text| + 1 && s[|text|] == 'x'
    ensures forall i | 0 <= i < |text| :: s[i] == if text[i] == '\n' then FORM_FEED else text[i]
  {
    seq(|text|, i requires 0 <= i < |text| => if text[i] == '\n' then FORM_FEED else text[i]) + "x"
  }

  lemma DisguiseShows(text: string)
    requires text != "" && !OtherBreak(text)
    ensures var s := Disguised(text);
            IsLocalText(s) && '\n' !in s && SplitLines(s) != [""] && Contains(JoinLines(SplitLines(s)), text)
  {
    var s := Disguised(text);
    forall i | 0 <= i < |s| ensures s[i] != '\r' && s[i] != '\n' {
      if i < |text| { assert IsBreak(text[i]) ==> text[i] == '\n'; }
    }
    if SplitLines(s) == [""] { OneBlankLine(s); }
    JoinSplit(s);
    var shown := Newlined(s);
    forall i | 0 <= i < |text| ensures shown[i] == text[i] {
      assert IsBreak(text[i]) ==> text[i] == '\n';
    }
    assert shown[0..|text|] == text;
    assert OccursAt(shown, text, 0);
  }

  lemma WithoutNewlineCarries(text: string)
    requires text != "" && '\n' !in text
    ensures ContainsCarries(text)
  {
    forall o, content | CollectedFrom(o, content) && IsLocalText(content) && HoldsFor(HasText, text, o.excerpt)
      ensures Contains(content, text)
    {
      CollectedIsFaithful(o, content);
      FoundInTheFile(o, content, text);
    }
  }

  lemma WithOtherBreakCarries(text: string)
    requires OtherBreak(text)
    ensures ContainsCarries(text)
  {
    forall o, content | CollectedFrom(o, content) && IsLocalText(content)
      ensures !HoldsFor(HasText, text, o.excerpt)
    {
      CollectedIsFaithful(o, content);
      ExcerptBreaks(o, content);
      NotWithoutItsBreak(o.excerpt, text);
    }
  }

  lemma NewlineDoesNotCarry(text: string)
    requires '\n' in text && !OtherBreak(text)
    ensures !ContainsCarries(text)
  {
    var content := Disguised(text);
    DisguiseShows(text);
    var o := WholeReadExists(content);
    NotWithout(content, text, '\n');
    assert HoldsFor(HasText, text, o.excerpt);
  }

  /**
   Which literals a verified "contains" carries to their file, for every local file and every
   excerpt of it: those without a newline, and those with another break, which no excerpt can
   hold. Any other literal is in some excerpt of a file that broke its lines differently.
   */
  lemma ContainsCarriesIff(text: string)
    requires text != ""
    ensures ContainsCarries(text) <==> '\n' !in text || OtherBreak(text)
  {
    if '\n' !in text {
      WithoutNewlineCarries(text);
    } else if OtherBreak(text) {
      WithOtherBreakCarries(text);
    } else {
      NewlineDoesNotCarry(text);
    }
  }

  // ---------------------------------------------------------------------- "lacks"

  /** Whatever local file is read in full without the literal, the file lacks it. */
  ghost predicate LacksCarries(text: string) {
    forall o, content |
      CollectedFrom(o, content) && IsLocalText(content) && o.ReadInFull() == Some(true)
      && HoldsFor(LacksText, text, o.excerpt) :: !Contains(content, text)
  }

  lemma FullExcerpt(o: Observation, content: string)
    requires CollectedFrom(o, content) && IsLocalText(content) && o.ReadInFull() == Some(true)
    ensures o.excerpt == Shown(content)
  {
    CollectedIs(o, content);
    JoinSplit(content);
    if content != "" {
      assert Window(SplitLines(content), o.lineStart, o.lineEnd) == SplitLines(content);
    }
  }

  /** A literal whose only breaks are newlines, none of them last, shows in a full read as it is. */
  lemma ShowsInFull(content: string, text: string, excerpt: string)
    requires Contains(content, text) && text != "" && !OtherBreak(text) && text[|text| - 1] != '\n'
    requires excerpt == Shown(content)
    ensures Contains(excerpt, text)
  {
    var i :| 0 <= i <= |content| && OccursAt(content, text, i);
    var last := i + |text| - 1;
    assert content[last] == content[i..i + |text|][|text| - 1];
    assert !IsBreak(text[|text| - 1]);
    assert i + |text| <= |excerpt|;
    forall k | 0 <= k < |text| ensures excerpt[i + k] == text[k] {
      assert content[i + k] == content[i..i + |text|][k];
      assert IsBreak(text[k]) ==> text[k] == '\n';
    }
    assert excerpt[i..i + |text|] == text;
    assert OccursAt(excerpt, text, i);
  }

  lemma PlainLacksCarries(text: string)
    requires text != "" && !OtherBreak(text) && text[|text| - 1] != '\n'
    ensures LacksCarries(text)
  {
    forall o, content | CollectedFrom(o, content) && IsLocalText(content) && o.ReadInFull() == Some(true)
                        && HoldsFor(LacksText, text, o.excerpt)
      ensures !Contains(content, text)
    {
      FullExcerpt(o, content);
      if Contains(content, text) { ShowsInFull(content, text, o.excerpt); }
    }
  }

  lemma ReturnLacksCarries(text: string)
    requires '\r' in text
    ensures LacksCarries(text)
  {
    forall o, content | CollectedFrom(o, content) && IsLocalText(content) ensures !Contains(content, text) {
      NotWithout(content, text, '\r');
    }
  }

  lemma LacksFailsOn(text: string, content: string)
    requires text != "" && Contains(content, text) && IsLocalText(content) && SplitLines(content) != [""]
    requires !Contains(JoinLines(SplitLines(content)), text)
    ensures !LacksCarries(text)
  {
    assert content == "" ==> !OccursAt(content, text, 0);
    var o := WholeReadExists(content);
    assert HoldsFor(LacksText, text, o.excerpt);
  }

  lemma OtherBreakLacksFails(text: string)
    requires OtherBreak(text) && '\r' !in text
    ensures !LacksCarries(text)
  {
    var content := "x" + text;
    assert forall c | c in content :: c == 'x' || c in text;
    if SplitLines(content) == [""] { OneBlankLine(content); }
    assert content[1..1 + |text|] == text;
    assert OccursAt(content, text, 1);
    JoinedBreaks(SplitLines(content));
    NotWithoutItsBreak(JoinLines(SplitLines(content)), text);
    LacksFailsOn(text, content);
  }

  lemma TrailingNewlineLacksFails(text: string)
    requires text != "" && '\r' !in text && text[|text| - 1] == '\n'
    ensures !LacksCarries(text)
  {
    if SplitLines(text) == [""] {
      OneBlankLine(text);
      assert text == "\n";
      SingleNewlineLacksFails();
    } else {
      assert text[0..|text|] == text;
      assert OccursAt(text, text, 0);
      JoinSplit(text);
      assert |JoinLines(SplitLines(text))| < |text|;
      LacksFailsOn(text, text);
    }
  }

  lemma SingleNewlineLacksFails()
    ensures !LacksCarries("\n")
  {
    var content := "x\n";
    assert content[1..2] == "\n";
    assert OccursAt(content, "\n", 1);
    JoinSplit(content);
    assert JoinLines(SplitLines(content)) == "x";
    NotWithout("x", "\n", '\n');
    if SplitLines(content) == [""] { OneBlankLine(content); }
    LacksFailsOn("\n", content);
  }

  /**
   Which literals a verified "lacks" over a full read carries to their file: those whose only
   breaks are newlines, none of them last, and those with a `\r`, which no local source holds.
   */
  lemma LacksCarriesIff(text: string)
    requires text != ""
    ensures LacksCarries(text) <==> '\r' in text || (!OtherBreak(text) && text[|text| - 1] != '\n')
  {
    if '\r' in text {
      ReturnLacksCarries(text);
    } else if OtherBreak(text) {
      OtherBreakLacksFails(text);
    } else if text[|text| - 1] == '\n' {
      TrailingNewlineLacksFails(text);
    } else {
      PlainLacksCarries(text);
    }
  }
}
