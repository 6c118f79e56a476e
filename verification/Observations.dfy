/**
 What was read, from where: one bounded excerpt of one source, bound to the digest of
 the whole of it.

 SHA-256 is taken to be injective, so a digest is the content it was taken of, and a
 source id is what it was derived from. Anything else a caller writes in their place is
 text that equals neither.
 */
module Observations {
  import opened Wrappers
  import opened Lines

  datatype Digest = Sha(content: string) | Hex(text: string) | UnknownDigest

  datatype SourceType = LocalFile | GithubFile | Ci | Memory

  datatype SourceId =
    | Derived(snapshotId: string, sourceType: SourceType, path: string)
    | Named(text: string)

  datatype ObservationError =
    | BlankPath | BadSnapshotId | NegativeLine | NoLines | BackwardRange | LinesWithoutExcerpt
    | NegativeTotal | BeyondTotal | NotItsSourceId

  datatype Observation = Observation(
    sourceId: SourceId, sourceType: SourceType, path: string, digest: Digest, excerpt: string,
    lineStart: int, lineEnd: int, totalLines: Option<int>, snapshotId: string)
  {
    /** Whether the excerpt is the whole source: `None` when nobody counted. */
    function ReadInFull(): Option<bool> {
      if totalLines.None? then None
      else if totalLines.value == 0 then Some(lineEnd == 0)
      else Some(lineStart == 1 && lineEnd >= totalLines.value)
    }

    predicate IsVerifiable() { digest != UnknownDigest }
  }

  /** An excerpt says which lines it covers; no excerpt covers no lines. */
  function RangeError(excerpt: string, lineStart: int, lineEnd: int): (e: Option<ObservationError>)
    ensures e.None? <==> if excerpt == "" then lineStart == lineEnd == 0 else 1 <= lineStart <= lineEnd
  {
    if lineStart < 0 || lineEnd < 0 then Some(NegativeLine)
    else if excerpt != "" then
      if lineStart < 1 then Some(NoLines)
      else if lineEnd < lineStart then Some(BackwardRange)
      else None
    else if lineStart != 0 || lineEnd != 0 then Some(LinesWithoutExcerpt)
    else None
  }

  /** A real value is not blank, and stripping it (`Lines.StripKeeps`) changes nothing. */
  predicate KnownOrUnknown(value: string) {
    value == "unknown" || (value != "" && !IsSpace(value[0]) && !IsSpace(value[|value| - 1]))
  }

  /** What `Observation` refuses to be built from, in the order it looks. */
  function Invalid(o: Observation): Option<ObservationError> {
    if Blank(o.path) then Some(BlankPath)
    else if !KnownOrUnknown(o.snapshotId) then Some(BadSnapshotId)
    else if RangeError(o.excerpt, o.lineStart, o.lineEnd).Some? then
      RangeError(o.excerpt, o.lineStart, o.lineEnd)
    else if o.totalLines.Some? && o.totalLines.value < 0 then Some(NegativeTotal)
    else if o.totalLines.Some? && o.lineEnd > o.totalLines.value then Some(BeyondTotal)
    else if o.sourceId != Derived(o.snapshotId, o.sourceType, o.path) then Some(NotItsSourceId)
    else None
  }

  predicate Valid(o: Observation) {
    Invalid(o).None?
  }

  lemma ValidMeans(o: Observation)
    requires Valid(o)
    ensures !Blank(o.path) && 0 <= o.lineStart <= o.lineEnd
    ensures o.sourceId == Derived(o.snapshotId, o.sourceType, o.path)
  {
  }

  function Create(
      sourceType: SourceType, path: string, digest: Digest, excerpt: string,
      lineStart: int, lineEnd: int, totalLines: Option<int>, snapshotId: string)
    : (r: Result<Observation, ObservationError>)
    ensures r.Ok? <==> !Blank(path) && KnownOrUnknown(snapshotId)
                       && RangeError(excerpt, lineStart, lineEnd).None?
                       && (totalLines.Some? ==> 0 <= totalLines.value && lineEnd <= totalLines.value)
    ensures r.Ok? ==> Valid(r.value) && r.value.sourceId == Derived(snapshotId, sourceType, path)
  {
    var o := Observation(
      Derived(snapshotId, sourceType, path), sourceType, path, digest, excerpt,
      lineStart, lineEnd, totalLines, snapshotId);
    if Invalid(o).Some? then Err(Invalid(o).value) else Ok(o)
  }

  /** What reading a source again can come back with, at one moment. */
  datatype Reading = Read(content: string) | PathRefused | Unreadable

  /** The lines of a source that a range names, as every checker slices them. */
  function LinesAt(content: string, lineStart: int, lineEnd: int): string {
    JoinLines(Window(SplitLines(content), lineStart, lineEnd))
  }

  /** Python's `lines[start - 1:end]` for a 1-based range: clamped, and empty backwards. */
  function Window(lines: seq<string>, lineStart: int, lineEnd: int): (w: seq<string>)
    ensures AllNoBreak(lines) ==> AllNoBreak(w)
    ensures 1 <= lineStart <= lineEnd <= |lines| ==> |w| == lineEnd - lineStart + 1
  {
    var from := SliceIndex(lineStart - 1, |lines|);
    var to := SliceIndex(lineEnd, |lines|);
    if from < to then lines[from..to] else []
  }

  /** A slice bound: a negative one counts from the end. */
  function SliceIndex(i: int, length: nat): (k: nat)
    ensures k <= length
  {
    if i < 0 then (if i + length < 0 then 0 else i + length)
    else if i > length then length
    else i
  }

  /** The observation still says what sits at its own lines of the content it digests. */
  predicate IsHonest(o: Observation, content: string) {
    o.digest == Sha(content) && o.excerpt == LinesAt(content, o.lineStart, o.lineEnd)
  }
}
