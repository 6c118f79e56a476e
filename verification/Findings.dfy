/**
 A claim, what it cites, and whether the citation still holds.

 Every check of a citation reads its source once, and each read may come back different.
 */
module Findings {
  import opened Wrappers
  import opened Lines
  import opened Observations
  import opened Observers

  datatype Reference = Reference(
    sourceId: SourceId, digest: Digest, lineStart: int, lineEnd: int, quoted: string)

  /** What a citation refuses to be built from. */
  predicate ReferenceOk(r: Reference) {
    r.digest != UnknownDigest && 1 <= r.lineStart <= r.lineEnd && r.quoted != ""
  }

  datatype Verdict = Verified | Contradicted | Insufficient

  /** The hash of a claim and its scope, joined by a NUL; SHA-256 is taken to be injective. */
  datatype FindingId = FindingId(of: string)

  datatype Finding = Finding(claim: string, scope: string, severity: string, evidence: seq<Reference>)
  {
    function Id(): FindingId { FindingId(claim + "\0" + scope) }
  }

  predicate FindingOk(f: Finding) {
    !Blank(f.claim) && !Blank(f.scope)
    && forall i | 0 <= i < |f.evidence| :: ReferenceOk(f.evidence[i])
  }

  datatype Status =
    | UnknownSource | DigestMismatch | QuoteMismatch | StaleSource | UnsupportedSourceType
    | PathRefusedStatus | ExcerptMismatch | QuoteOutsideExcerpt | Intact

  /** Which kinds of source this run can read again; local files always. */
  predicate CanRead(extra: set<SourceType>, t: SourceType) {
    t == LocalFile || t in extra
  }

  /** Two of the checks need no read, one read feeds the other three. */
  function CheckReference(
      ref: Reference, obs: seq<Observation>, extra: set<SourceType>, reading: Reading): Status
  {
    var p := PositionOf(obs, ref.sourceId);
    if p.None? then UnknownSource
    else
      var o := obs[p.value];
      if !CanRead(extra, o.sourceType) then UnsupportedSourceType
      else if ref.digest != o.digest then DigestMismatch
      else if ref.lineStart < o.lineStart || ref.lineEnd > o.lineEnd then QuoteOutsideExcerpt
      else match reading
        case PathRefused => PathRefusedStatus
        case Unreadable => StaleSource
        case Read(content) =>
          if Sha(content) != o.digest then StaleSource
          else if LinesAt(content, o.lineStart, o.lineEnd) != o.excerpt then ExcerptMismatch
          else if LinesAt(content, ref.lineStart, ref.lineEnd) != ref.quoted then QuoteMismatch
          else Intact
  }

  /** One status per citation, in order; the verdict of this layer is always the weak one. */
  type Statuses = seq<Status>

  function CheckFinding(
      f: Finding, obs: seq<Observation>, extra: set<SourceType>, reread: nat -> Reading)
    : (s: Statuses)
    ensures |s| == |f.evidence|
  {
    seq(|f.evidence|, i requires 0 <= i < |f.evidence| => CheckReference(f.evidence[i], obs, extra, reread(i)))
  }

  predicate AreSound(s: Statuses) {
    s != [] && forall i | 0 <= i < |s| :: s[i] == Intact
  }

  // ------------------------------------------------ what an intact citation establishes

  lemma {:induction false} JoinAppend(a: seq<string>, b: seq<string>)
    requires a != [] && b != []
    ensures JoinLines(a + b) == JoinLines(a) + "\n" + JoinLines(b)
  {
    var all := a + b;
    assert all[1..] == a[1..] + b;
    if |a| == 1 {
      assert all[1..] == b;
    } else {
      JoinAppend(a[1..], b);
    }
  }

  lemma ContainsItself(s: string)
    ensures Contains(s, s)
  {
    assert OccursAt(s, s, 0);
  }

  lemma TailIsInside(lines: seq<string>, from: nat)
    requires from < |lines|
    ensures Contains(JoinLines(lines), JoinLines(lines[from..]))
  {
    var tail := lines[from..];
    ContainsItself(JoinLines(tail));
    if from > 0 {
      JoinAppend(lines[..from], tail);
      assert lines == lines[..from] + tail;
      ContainsRight(JoinLines(lines[..from]) + "\n", JoinLines(tail), JoinLines(tail));
    } else {
      assert tail == lines;
    }
  }

  lemma HeadIsInside(lines: seq<string>, to: nat)
    requires 0 < to <= |lines|
    ensures Contains(JoinLines(lines), JoinLines(lines[..to]))
  {
    var head := lines[..to];
    ContainsItself(JoinLines(head));
    if to < |lines| {
      JoinAppend(head, lines[to..]);
      assert lines == head + lines[to..];
      var rest := "\n" + JoinLines(lines[to..]);
      assert JoinLines(lines) == JoinLines(head) + rest;
      ContainsLeft(JoinLines(head), rest, JoinLines(head));
    } else {
      assert head == lines;
    }
  }

  /** A run of lines, joined, is inside the join of any longer run around it. */
  lemma SubrunIsInside(lines: seq<string>, from: nat, to: nat)
    requires from < to <= |lines|
    ensures Contains(JoinLines(lines), JoinLines(lines[from..to]))
  {
    HeadIsInside(lines, to);
    TailIsInside(lines[..to], from);
    assert lines[..to][from..] == lines[from..to];
    ContainsTransitive(JoinLines(lines), JoinLines(lines[..to]), JoinLines(lines[from..to]));
  }

  lemma SliceOfSlice(lines: seq<string>, a: nat, b: nat, c: nat, d: nat)
    requires a <= c <= d <= b <= |lines|
    ensures lines[a..b][c - a..d - a] == lines[c..d]
  {
    var left, right := lines[a..b][c - a..d - a], lines[c..d];
    assert |left| == |right|;
    assert forall i | 0 <= i < |left| :: left[i] == right[i];
  }

  /** A window, with its end clamped to the lines there are. */
  lemma WindowClamped(lines: seq<string>, lineStart: int, lineEnd: int)
    requires 1 <= lineStart <= lineEnd
    ensures var end := if lineEnd > |lines| then |lines| else lineEnd;
            Window(lines, lineStart, lineEnd) == if lineStart <= end then lines[lineStart - 1..end] else []
  {
  }

  lemma WindowInside(content: string, o: Observation, lineStart: int, lineEnd: int)
    requires 1 <= o.lineStart <= lineStart <= lineEnd <= o.lineEnd
    requires LinesAt(content, lineStart, lineEnd) != ""
    ensures Contains(LinesAt(content, o.lineStart, o.lineEnd), LinesAt(content, lineStart, lineEnd))
  {
    var lines := SplitLines(content);
    WindowsNest(lines, o.lineStart, o.lineEnd, lineStart, lineEnd);
  }

  lemma WindowsNest(lines: seq<string>, outerStart: int, outerEnd: int, lineStart: int, lineEnd: int)
    requires 1 <= outerStart <= lineStart <= lineEnd <= outerEnd
    requires JoinLines(Window(lines, lineStart, lineEnd)) != ""
    ensures Contains(JoinLines(Window(lines, outerStart, outerEnd)), JoinLines(Window(lines, lineStart, lineEnd)))
  {
    WindowClamped(lines, outerStart, outerEnd);
    WindowClamped(lines, lineStart, lineEnd);
    var a, b := outerStart - 1, if outerEnd > |lines| then |lines| else outerEnd;
    var c, d := lineStart - 1, if lineEnd > |lines| then |lines| else lineEnd;
    assert c < d;
    SliceOfSlice(lines, a, b, c, d);
    SubrunIsInside(lines[a..b], c - a, d - a);
  }

  /**
   An intact citation quotes, word for word, part of an excerpt this run recorded, and the
   source still reads as the very text it had then.
   */
  lemma IntactMeans(ref: Reference, obs: seq<Observation>, extra: set<SourceType>, reading: Reading)
    requires ReferenceOk(ref) && forall i | 0 <= i < |obs| :: Valid(obs[i])
    requires CheckReference(ref, obs, extra, reading) == Intact
    ensures exists i | 0 <= i < |obs| ::
              && obs[i].sourceId == ref.sourceId && obs[i].digest == ref.digest
              && reading.Read? && IsHonest(obs[i], reading.content)
              && obs[i].lineStart <= ref.lineStart <= ref.lineEnd <= obs[i].lineEnd
              && Contains(obs[i].excerpt, ref.quoted)
  {
    var o := obs[PositionOf(obs, ref.sourceId).value];
    assert o.lineStart >= 1;
    WindowInside(reading.content, o, ref.lineStart, ref.lineEnd);
  }
}
