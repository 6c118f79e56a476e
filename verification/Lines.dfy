/**
 Text as the run reads it: `str.splitlines`, `str.strip`, `"\n".join` and `in`.

 Every excerpt, citation and log line goes through these, so the facts the other
 modules need are stated once: a joined list of lines splits back into itself (up
 to a trailing empty line), and text that holds no line break occurs in a source
 exactly when it occurs in one of its lines.
 */
module Lines {

  /** Where `str.splitlines` ends a line. */
  predicate IsBreak(c: char) {
    '\n' <= c <= '\r' || '\U{1C}' <= c <= '\U{1E}' || c == '\U{85}'
    || c == '\U{2028}' || c == '\U{2029}'
  }

  /** `str.isspace`, which `str.strip` removes and `\s` matches. */
  predicate IsSpace(c: char) {
    '\t' <= c <= '\r' || '\U{1C}' <= c <= ' ' || c == '\U{85}' || c == '\U{A0}'
    || c == '\U{1680}' || '\U{2000}' <= c <= '\U{200A}' || c == '\U{2028}'
    || c == '\U{2029}' || c == '\U{202F}' || c == '\U{205F}' || c == '\U{3000}'
  }

  predicate NoBreak(s: string) {
    forall i | 0 <= i < |s| :: !IsBreak(s[i])
  }

  predicate AllNoBreak(lines: seq<string>) {
    forall i | 0 <= i < |lines| :: NoBreak(lines[i])
  }

  predicate Blank(s: string) {
    forall i | 0 <= i < |s| :: IsSpace(s[i])
  }

  // ---------------------------------------------------------------- strip

  function LStrip(s: string): (r: string)
    ensures r != "" ==> !IsSpace(r[0])
    ensures |r| <= |s| && r == s[|s| - |r|..] && Blank(s[..|s| - |r|])
  {
    if s != "" && IsSpace(s[0]) then
      var r := LStrip(s[1..]);
      assert s[..|s| - |r|] == [s[0]] + s[1..][..|s[1..]| - |r|];
      r
    else s
  }

  function RStrip(s: string): (r: string)
    ensures r != "" ==> !IsSpace(r[|r| - 1])
    ensures |r| <= |s| && r == s[..|r|] && Blank(s[|r|..])
  {
    if s != "" && IsSpace(s[|s| - 1]) then RStrip(s[..|s| - 1]) else s
  }

  function Strip(s: string): string {
    RStrip(LStrip(s))
  }

  lemma StripIsInside(s: string)
    ensures Contains(s, Strip(s))
  {
    var l, r := LStrip(s), Strip(s);
    var k := |s| - |l|;
    assert s[k..k + |r|] == l[..|r|];
    assert OccursAt(s, r, k);
  }

  /** Stripping changes nothing exactly when neither end is a space. */
  lemma StripKeeps(s: string)
    ensures Strip(s) == s <==> s == "" || (!IsSpace(s[0]) && !IsSpace(s[|s| - 1]))
  {
    if s != "" && IsSpace(s[0]) {
      assert |LStrip(s)| < |s| by {
        assert LStrip(s) == LStrip(s[1..]);
      }
    } else if s != "" && IsSpace(s[|s| - 1]) {
      assert |RStrip(s)| < |s| by {
        assert RStrip(s) == RStrip(s[..|s| - 1]);
      }
    }
  }

  lemma StripKeepsStart(s: string)
    requires s != "" && !IsSpace(s[|s| - 1])
    ensures Strip(s) == s <==> !IsSpace(s[0])
  {
    StripKeeps(s);
  }

  // ----------------------------------------------------------- splitlines

  /** The first line break, or the length. */
  function BreakAt(s: string): (i: nat)
    ensures i <= |s| && NoBreak(s[..i])
    ensures i < |s| ==> IsBreak(s[i])
  {
    if s == "" || IsBreak(s[0]) then 0
    else
      var i := 1 + BreakAt(s[1..]);
      assert s[..i] == [s[0]] + s[1..][..i - 1];
      i
  }

  /** `\r\n` is one break; everything else is one character. */
  function BreakWidth(s: string, i: nat): (w: nat)
    requires i < |s|
    ensures 1 <= w <= 2 && i + w <= |s|
  {
    if s[i] == '\r' && i + 1 < |s| && s[i + 1] == '\n' then 2 else 1
  }

  function SplitLines(s: string): (lines: seq<string>)
    ensures AllNoBreak(lines)
    ensures s != "" <==> lines != []
  {
    if s == "" then []
    else
      var i := BreakAt(s);
      if i == |s| then assert s[..i] == s; [s]
      else [s[..i]] + SplitLines(s[i + BreakWidth(s, i)..])
  }

  /** `splitlines(keepends=True)`. */
  function SplitKeep(s: string): (pieces: seq<string>)
    ensures s != "" <==> pieces != []
    ensures forall i | 0 <= i < |pieces| :: pieces[i] != ""
  {
    if s == "" then []
    else
      var i := BreakAt(s);
      if i == |s| then [s]
      else
        var n := i + BreakWidth(s, i);
        [s[..n]] + SplitKeep(s[n..])
  }

  lemma {:induction false} BreakAtFirst(a: string, t: string)
    requires NoBreak(a)
    requires t == "" || IsBreak(t[0])
    ensures BreakAt(a + t) == |a|
  {
    if a == "" {
      assert a + t == t;
    } else {
      assert (a + t)[1..] == a[1..] + t;
      BreakAtFirst(a[1..], t);
    }
  }

  // ----------------------------------------------------------------- join

  function Join(sep: string, parts: seq<string>): string {
    if |parts| == 0 then ""
    else if |parts| == 1 then parts[0]
    else parts[0] + sep + Join(sep, parts[1..])
  }

  function JoinLines(lines: seq<string>): string {
    Join("\n", lines)
  }

  /** What is left of a list of lines once it has been joined and split again. */
  function Visible(lines: seq<string>): seq<string> {
    if lines != [] && lines[|lines| - 1] == "" then lines[..|lines| - 1] else lines
  }

  lemma SplitAfter(a: string, rest: string)
    requires NoBreak(a)
    ensures SplitLines(a + "\n" + rest) == [a] + SplitLines(rest)
  {
    var s := a + "\n" + rest;
    assert s == a + ("\n" + rest);
    BreakAtFirst(a, "\n" + rest);
    assert s[..|a|] == a && s[|a| + 1..] == rest;
  }

  lemma SplitOne(line: string)
    requires NoBreak(line)
    ensures SplitLines(line) == Visible([line])
  {
    BreakAtFirst(line, "");
    assert line + "" == line;
  }

  lemma VisibleCons(line: string, rest: seq<string>)
    requires rest != []
    ensures Visible([line] + rest) == [line] + Visible(rest)
  {
    var all := [line] + rest;
    assert all[|all| - 1] == rest[|rest| - 1];
    assert all[..|all| - 1] == [line] + rest[..|rest| - 1];
  }

  lemma JoinCons(line: string, rest: seq<string>)
    requires rest != []
    ensures JoinLines([line] + rest) == line + "\n" + JoinLines(rest)
  {
    assert ([line] + rest)[1..] == rest;
  }

  /** Joining and splitting loses a trailing empty line and nothing else. */
  lemma {:induction false} SplitJoin(lines: seq<string>)
    requires AllNoBreak(lines)
    ensures SplitLines(JoinLines(lines)) == Visible(lines)
  {
    if |lines| == 1 {
      SplitOne(lines[0]);
      assert lines == [lines[0]];
    } else if |lines| > 1 {
      var line, rest := lines[0], lines[1..];
      assert lines == [line] + rest;
      JoinCons(line, rest);
      SplitAfter(line, JoinLines(rest));
      SplitJoin(rest);
      VisibleCons(line, rest);
    }
  }

  // ------------------------------------------------------------- contains

  predicate OccursAt(s: string, t: string, i: int) {
    0 <= i <= |s| - |t| && s[i..i + |t|] == t
  }

  /** Python's `t in s`. */
  predicate Contains(s: string, t: string) {
    exists i | 0 <= i <= |s| :: OccursAt(s, t, i)
  }

  predicate SomeLineContains(lines: seq<string>, t: string) {
    exists i :: 0 <= i < |lines| && Contains(lines[i], t)
  }

  lemma ContainsTransitive(s: string, t: string, u: string)
    requires Contains(s, t) && Contains(t, u)
    ensures Contains(s, u)
  {
    var i :| 0 <= i <= |s| && OccursAt(s, t, i);
    var j :| 0 <= j <= |t| && OccursAt(t, u, j);
    assert forall k | 0 <= k < |u| :: s[i + j + k] == t[j + k] == u[k];
    assert s[i + j..i + j + |u|] == u;
    assert OccursAt(s, u, i + j);
  }

  lemma OccursLeft(a: string, b: string, t: string, i: int)
    requires i + |t| <= |a|
    ensures OccursAt(a + b, t, i) <==> OccursAt(a, t, i)
  {
    if 0 <= i { assert (a + b)[i..i + |t|] == a[i..i + |t|]; }
  }

  lemma OccursRight(a: string, b: string, t: string, i: int)
    requires i >= 0
    ensures OccursAt(a + b, t, |a| + i) <==> OccursAt(b, t, i)
  {
    if i + |t| <= |b| { assert (a + b)[|a| + i..|a| + i + |t|] == b[i..i + |t|]; }
  }

  lemma OverlapHolds(a: string, sep: string, b: string, t: string, i: int)
    requires OccursAt(a + sep + b, t, i) && t != "" && sep != ""
    requires i < |a| + |sep| && |a| < i + |t|
    ensures exists k | 0 <= k < |sep| :: sep[k] in t
  {
    var s := a + sep + b;
    var p := if i < |a| then |a| else i;
    assert s[p] == sep[p - |a|];
    assert s[i..i + |t|][p - i] == s[p];
    assert t[p - i] == s[p];
  }

  lemma ContainsLeft(a: string, b: string, t: string)
    requires Contains(a, t)
    ensures Contains(a + b, t)
  {
    var i :| 0 <= i <= |a| && OccursAt(a, t, i);
    OccursLeft(a, b, t, i);
  }

  lemma ContainsRight(a: string, b: string, t: string)
    requires Contains(b, t)
    ensures Contains(a + b, t)
  {
    var i :| 0 <= i <= |b| && OccursAt(b, t, i);
    OccursRight(a, b, t, i);
  }

  lemma OnOneSide(a: string, sep: string, b: string, t: string, i: nat)
    requires t != "" && sep != "" && OccursAt(a + sep + b, t, i)
    requires forall k | 0 <= k < |sep| :: sep[k] !in t
    ensures Contains(a, t) || Contains(b, t)
  {
    assert a + sep + b == a + (sep + b);
    if i + |t| <= |a| {
      OccursLeft(a, sep + b, t, i);
      assert OccursAt(a, t, i);
    } else if i >= |a + sep| {
      OccursRight(a + sep, b, t, i - |a + sep|);
      assert OccursAt(b, t, i - |a + sep|);
    } else {
      OverlapHolds(a, sep, b, t, i);
    }
  }

  /** Text that avoids the separator lies wholly on one side of it. */
  lemma ContainsAround(a: string, sep: string, b: string, t: string)
    requires t != "" && sep != ""
    requires forall i | 0 <= i < |sep| :: sep[i] !in t
    ensures Contains(a + sep + b, t) <==> Contains(a, t) || Contains(b, t)
  {
    var s := a + sep + b;
    assert s == a + (sep + b);
    if Contains(s, t) {
      var i :| 0 <= i <= |s| && OccursAt(s, t, i);
      OnOneSide(a, sep, b, t, i);
    }
    if Contains(a, t) { ContainsLeft(a, sep + b, t); }
    if Contains(b, t) { ContainsRight(a + sep, b, t); }
  }

  lemma SomeLineCons(line: string, rest: seq<string>, t: string)
    ensures SomeLineContains([line] + rest, t) <==> Contains(line, t) || SomeLineContains(rest, t)
  {
    var all := [line] + rest;
    if SomeLineContains(all, t) {
      var i :| 0 <= i < |all| && Contains(all[i], t);
      if i > 0 { assert rest[i - 1] == all[i]; }
    }
    if Contains(line, t) { assert Contains(all[0], t); }
    if SomeLineContains(rest, t) {
      var i :| 0 <= i < |rest| && Contains(rest[i], t);
      assert all[i + 1] == rest[i];
    }
  }

  /** Text with no line break occurs in a source exactly when one of its lines has it. */
  lemma {:induction false} ContainsByLine(s: string, t: string)
    requires t != "" && NoBreak(t)
    ensures Contains(s, t) <==> SomeLineContains(SplitLines(s), t)
    decreases |s|
  {
    if s != "" {
      var i := BreakAt(s);
      if i == |s| {
        assert SplitLines(s) == [s] + [];
        SomeLineCons(s, [], t);
      } else {
        var n := i + BreakWidth(s, i);
        assert s == s[..i] + s[i..n] + s[n..];
        ContainsAround(s[..i], s[i..n], s[n..], t);
        ContainsByLine(s[n..], t);
        SomeLineCons(s[..i], SplitLines(s[n..]), t);
      }
    }
  }

  /** The same for the lines of an excerpt joined with newlines. */
  lemma {:induction false} ContainsInJoin(lines: seq<string>, t: string)
    requires t != "" && '\n' !in t
    ensures Contains(JoinLines(lines), t) <==> SomeLineContains(lines, t)
  {
    if |lines| == 1 {
      assert lines == [lines[0]] + [];
      SomeLineCons(lines[0], [], t);
    } else if |lines| > 1 {
      assert lines == [lines[0]] + lines[1..];
      ContainsAround(lines[0], "\n", JoinLines(lines[1..]), t);
      ContainsInJoin(lines[1..], t);
      SomeLineCons(lines[0], lines[1..], t);
    }
  }
}
