/** Reading one file into an observation, and asking later whether it still holds. */
module Snapshots {
  import opened Wrappers
  import opened Lines
  import opened Observations

  const DEFAULT_MAX_LINES: nat := 80

  datatype CollectError =
    | MaxLinesTooSmall | LineStartTooSmall | BeyondEmptySource | BeyondSource
    | AnchorAndLineStart | BadAnchor | AnchorNotFound
    | Refused(observationError: ObservationError)

  /** One excerpt and the lines it covers. */
  datatype Excerpt = Excerpt(text: string, lineStart: int, lineEnd: int)

  function TakeExcerpt(content: string, maxLines: int, lineStart: int): Result<Excerpt, CollectError> {
    var lines := SplitLines(content);
    if maxLines < 1 then Err(MaxLinesTooSmall)
    else if lineStart < 1 then Err(LineStartTooSmall)
    else if lines == [] then
      if lineStart != 1 then Err(BeyondEmptySource) else Ok(Excerpt("", 0, 0))
    else if lineStart > |lines| then Err(BeyondSource)
    else
      var end := if lineStart - 1 + maxLines > |lines| then |lines| else lineStart - 1 + maxLines;
      var kept := lines[lineStart - 1..end];
      Ok(Excerpt(JoinLines(kept), lineStart, lineStart + |kept| - 1))
  }

  function FirstPrefixedLine(lines: seq<string>, prefix: string): (r: Option<nat>)
    ensures r.Some? ==> 1 <= r.value <= |lines| && prefix <= lines[r.value - 1]
    ensures r.Some? ==> forall i | 0 <= i < r.value - 1 :: !(prefix <= lines[i])
    ensures r.None? ==> forall i | 0 <= i < |lines| :: !(prefix <= lines[i])
  {
    if lines == [] then None
    else if prefix <= lines[0] then Some(1)
    else
      var rest := FirstPrefixedLine(lines[1..], prefix);
      if rest.None? then None else Some(rest.value + 1)
  }

  /** How a local file reads: every `\r\n` and every lone `\r` comes back as a newline. */
  function UniversalNewlines(raw: string): (content: string)
    ensures '\r' !in content
    ensures '\r' !in raw ==> content == raw
    ensures |content| <= |raw|
  {
    if raw == "" then ""
    else if raw[0] == '\r' then
      ['\n'] + UniversalNewlines(if |raw| > 1 && raw[1] == '\n' then raw[2..] else raw[1..])
    else [raw[0]] + UniversalNewlines(raw[1..])
  }

  predicate GoodAnchor(anchor: string) {
    anchor != "" && '\n' !in anchor && '\r' !in anchor && |anchor| <= 128
  }

  function StartLine(content: string, lineStart: int, anchor: Option<string>): Result<int, CollectError> {
    if anchor.None? then Ok(lineStart)
    else if lineStart != 1 then Err(AnchorAndLineStart)
    else if !GoodAnchor(anchor.value) then Err(BadAnchor)
    else
      var found := FirstPrefixedLine(SplitLines(content), anchor.value);
      if found.None? then Err(AnchorNotFound) else Ok(found.value)
  }

  /** Read one file under the snapshot; `content` is what the read returned. */
  function Collect(
      snapshotId: string, path: string, content: string, maxLines: int, lineStart: int,
      anchor: Option<string>): Result<Observation, CollectError>
  {
    var start :- StartLine(content, lineStart, anchor);
    var excerpt :- TakeExcerpt(content, maxLines, start);
    var made := Create(
      LocalFile, path, Sha(content), excerpt.text, excerpt.lineStart, excerpt.lineEnd,
      Some(|SplitLines(content)|), snapshotId);
    if made.Err? then Err(Refused(made.error)) else Ok(made.value)
  }

  datatype Verification = Fresh | Stale | Missing | ReadRefused | Unverifiable

  /** Whether the observation still describes its source, given what reading it returned. */
  function Verify(o: Observation, reading: Reading): Verification {
    if !o.IsVerifiable() then Unverifiable
    else if o.sourceType != LocalFile then Unverifiable
    else match reading
      case PathRefused => ReadRefused
      case Unreadable => Missing
      case Read(content) =>
        if Sha(content) != o.digest then Stale
        else if VerifiedLines(content, o.lineStart, o.lineEnd) != o.excerpt then Stale
        else Fresh
  }

  /** `snapshot._lines`, which answers nothing for a range that starts before line one. */
  function VerifiedLines(content: string, lineStart: int, lineEnd: int): string {
    if lineStart < 1 then "" else LinesAt(content, lineStart, lineEnd)
  }

  // ------------------------------------------------------- what collection establishes

  /** The observation is one that `Collect` made from this content. */
  ghost predicate CollectedFrom(o: Observation, content: string) {
    exists snapshotId, path, maxLines: int, lineStart: int, anchor: Option<string> ::
      Collect(snapshotId, path, content, maxLines, lineStart, anchor) == Ok(o)
  }

  lemma JoinIsEmpty(lines: seq<string>)
    requires lines != []
    ensures JoinLines(lines) == "" <==> lines == [""]
  {
    if |lines| == 1 {
      assert lines == [lines[0]];
    } else {
      assert JoinLines(lines) == lines[0] + "\n" + JoinLines(lines[1..]);
      assert |lines[0] + "\n" + JoinLines(lines[1..])| > 0;
    }
  }

  /** What an excerpt holds, and when there is one. */
  lemma ExcerptIs(content: string, maxLines: int, lineStart: int)
    ensures var lines, e := SplitLines(content), TakeExcerpt(content, maxLines, lineStart);
            && (e.Ok? <==> maxLines >= 1 && if lines == [] then lineStart == 1 else 1 <= lineStart <= |lines|)
            && (e.Ok? && lines == [] ==> e.value == Excerpt("", 0, 0))
            && (e.Ok? && lines != [] ==>
                  && e.value.lineStart == lineStart <= e.value.lineEnd <= |lines|
                  && e.value.lineEnd
                     == (if lineStart - 1 + maxLines > |lines| then |lines| else lineStart - 1 + maxLines)
                  && e.value.text == JoinLines(lines[lineStart - 1..e.value.lineEnd])
                  && (e.value.text == "" <==> lineStart == e.value.lineEnd && lines[lineStart - 1] == ""))
  {
    var lines, e := SplitLines(content), TakeExcerpt(content, maxLines, lineStart);
    if e.Ok? && lines != [] {
      var kept := lines[lineStart - 1..e.value.lineEnd];
      JoinIsEmpty(kept);
      assert kept == [""] <==> |kept| == 1 && kept[0] == "";
    }
  }

  lemma CreatedIff(path: string, digest: Digest, e: Excerpt, total: nat, snapshotId: string)
    requires e.lineEnd <= total
    ensures Create(LocalFile, path, digest, e.text, e.lineStart, e.lineEnd, Some(total), snapshotId).Ok?
            <==> !Blank(path) && KnownOrUnknown(snapshotId) && RangeError(e.text, e.lineStart, e.lineEnd).None?
  {
  }

  /** What one excerpt and a successful `Create` leave to be said about an observation. */
  lemma MadeIs(o: Observation, path: string, content: string, e: Excerpt, snapshotId: string)
    requires Create(LocalFile, path, Sha(content), e.text, e.lineStart, e.lineEnd,
                    Some(|SplitLines(content)|), snapshotId) == Ok(o)
    ensures Valid(o) && o.sourceType == LocalFile && o.digest == Sha(content)
    ensures o.totalLines == Some(|SplitLines(content)|)
    ensures o.excerpt == e.text && o.lineStart == e.lineStart && o.lineEnd == e.lineEnd
    ensures e.text == "" <==> e.lineStart == 0
    ensures e.text != "" ==> 1 <= e.lineStart <= e.lineEnd
  {
  }

  lemma ExcerptIsHonest(content: string, maxLines: int, lineStart: int)
    requires TakeExcerpt(content, maxLines, lineStart).Ok?
    ensures var e := TakeExcerpt(content, maxLines, lineStart).value;
            && e.text == LinesAt(content, e.lineStart, e.lineEnd) && e.lineEnd <= |SplitLines(content)|
            && (content == "" <==> e.lineStart == 0)
  {
    ExcerptIs(content, maxLines, lineStart);
  }

  lemma CollectedIs(o: Observation, content: string)
    requires CollectedFrom(o, content)
    ensures Valid(o) && o.sourceType == LocalFile && IsHonest(o, content)
    ensures o.totalLines == Some(|SplitLines(content)|) && o.lineEnd <= |SplitLines(content)|
    ensures content == "" ==> o.lineStart == o.lineEnd == 0
    ensures content != "" ==> 1 <= o.lineStart <= o.lineEnd
    ensures o.excerpt == "" <==> content == ""
  {
    var snapshotId, path, maxLines: int, lineStart: int, anchor: Option<string> :|
      Collect(snapshotId, path, content, maxLines, lineStart, anchor) == Ok(o);
    var start := StartLine(content, lineStart, anchor).value;
    ExcerptIsHonest(content, maxLines, start);
    MadeIs(o, path, content, TakeExcerpt(content, maxLines, start).value, snapshotId);
  }

  /** Everything collection establishes about an observation of this content. */
  predicate Faithful(o: Observation, content: string) {
    && !Blank(o.path) && o.sourceType == LocalFile && IsHonest(o, content)
    && if content == "" then o.lineStart == o.lineEnd == 0
       else 1 <= o.lineStart <= o.lineEnd <= |SplitLines(content)|
  }

  lemma CollectedIsFaithful(o: Observation, content: string)
    requires CollectedFrom(o, content)
    ensures Faithful(o, content)
  {
    CollectedIs(o, content);
    ValidMeans(o);
  }

  /** Re-reading confirms a collected window exactly when the content has not changed. */
  lemma FreshIffUnchanged(o: Observation, before: string, after: string)
    requires CollectedFrom(o, before)
    ensures Verify(o, Read(after)) == Fresh <==> after == before
  {
    CollectedIs(o, before);
  }

  /**
   Every request collection can serve, it serves, with one exception: a window that is a
   single blank line, whose excerpt is empty while its range is not.
   */
  lemma CollectSucceedsIff(snapshotId: string, path: string, content: string, maxLines: int, lineStart: int)
    requires !Blank(path) && KnownOrUnknown(snapshotId)
    ensures var lines := SplitLines(content);
            Collect(snapshotId, path, content, maxLines, lineStart, None).Ok?
            <==> && maxLines >= 1
                 && (if content == "" then lineStart == 1 else 1 <= lineStart <= |lines|)
                 && !(content != "" && lines[lineStart - 1] == "" && (maxLines == 1 || lineStart == |lines|))
  {
    ExcerptIs(content, maxLines, lineStart);
    var e := TakeExcerpt(content, maxLines, lineStart);
    if e.Ok? {
      CreatedIff(path, Sha(content), e.value, |SplitLines(content)|, snapshotId);
    }
  }
}
